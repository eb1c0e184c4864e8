/**
 * The process-wide state of src/lib.rs and the entry points that read and
 * update it. One `Plugin` object stands for the statics: the hook offset, the
 * per-slot selected skin paths and cached renders, and the last-selected
 * indicator. The mutexes around each slot only serialise access, so each
 * entry point is modelled as one sequential step.
 */
module MinecraftSkins {
  import opened Common
  import opened Locator
  import opened Packer
  import opened Dispatch

  /** The sentinel `LAST_SELECTED` holds when no slot is marked. */
  const NO_SLOT: nat := 0xFF

  class Plugin {
    /** Collaborators outside the core, fixed for the life of the process. */
    const host: Host
    /** Whether the crate was built with the `renders` feature. */
    const rendersEnabled: bool

    /** `FIGHTER_SELECTED_OFFSET`. */
    var fighterSelectedOffset: nat
    /** `LAST_SELECTED`. */
    var lastSelected: nat
    /** `SELECTED_SKINS`. */
    const selected: array<Option<Path>>
    /** `RENDERS`. */
    const renders: array<Option<Image>>

    /**
     * Eight slots of each kind, and each cached render is the one computed
     * from the slot's selected path (none at all without the `renders` feature).
     */
    ghost predicate Valid()
      reads this, selected, renders
    {
      host.Valid() &&
      selected.Length == SLOT_COUNT && renders.Length == SLOT_COUNT &&
      forall i :: 0 <= i < SLOT_COUNT ==>
        renders[i] == (if rendersEnabled then RenderFor(host, selected[i]) else None)
    }

    /** The state at process start: no selections, no renders, the 13.0.2 offset. */
    constructor (host: Host, rendersEnabled: bool)
      requires host.Valid()
      ensures Valid() && fresh(selected) && fresh(renders)
      ensures this.host == host && this.rendersEnabled == rendersEnabled
      ensures forall i :: 0 <= i < SLOT_COUNT ==> selected[i].None? && renders[i].None?
      ensures fighterSelectedOffset == DEFAULT_FIGHTER_SELECTED_OFFSET
      ensures lastSelected == NO_SLOT
    {
      this.host := host;
      this.rendersEnabled := rendersEnabled;
      fighterSelectedOffset := DEFAULT_FIGHTER_SELECTED_OFFSET;
      lastSelected := NO_SLOT;
      selected := new Option<Path>[SLOT_COUNT](_ => None);
      renders := new Option<Image>[SLOT_COUNT](_ => None);
    }

    /** `search_offsets`: move the hook offset to the first match of the signature, if any. */
    method SearchOffsets(text: seq<byte>)
      modifies this`fighterSelectedOffset
      ensures fighterSelectedOffset == ResolveOffset(text, old(fighterSelectedOffset))
    {
      var found := FindSubsequence(text, FIGHTER_SELECTED_SEARCH_CODE);
      if found.Some? {
        fighterSelectedOffset := found.value;
      }
    }

    /** `prepo_add_play_report_hook`: clear the last-selected indicator. */
    method PlayReportHook()
      modifies this`lastSelected
      ensures lastSelected == NO_SLOT
    {
      lastSelected := NO_SLOT;
    }

    /**
     * `css_fighter_selected`: a selection event for fighter `fighterId` in
     * slot `fighterSlot`, with `path` the skin the menu currently offers.
     * Other fighters are ignored; for the target fighter only that slot's
     * path changes and, with the `renders` feature, its render.
     */
    method FighterSelected(fighterId: byte, fighterSlot: byte, path: Option<Path>)
      requires Valid()
      requires fighterId as int == host.pickelKind ==> (fighterSlot as nat) < SLOT_COUNT
      modifies selected, renders
      ensures Valid()
      ensures fighterId as int != host.pickelKind ==>
        selected[..] == old(selected[..]) && renders[..] == old(renders[..])
      ensures fighterId as int == host.pickelKind ==>
        selected[..] == old(selected[..])[fighterSlot as int := path] &&
        renders[..] == old(renders[..])[fighterSlot as int := if rendersEnabled then RenderFor(host, path) else None]
    {
      if fighterId as int == host.pickelKind {
        var slot := fighterSlot as nat;
        selected[slot] := path;
        if rendersEnabled {
          match path
          case None =>
            renders[slot] := None;
          case Some(p) =>
            var skin := host.colorCorrect(host.decode(p));
            renders[slot] := Some(host.createRender(host.toModern(skin)));
        }
      }
    }

    /** `get_render`: the cached render of a slot, present exactly when a selection is active and renders are built. */
    method GetRender(slot: nat) returns (r: Option<Image>)
      requires Valid() && slot < SLOT_COUNT
      ensures r == renders[slot]
      ensures r.None? <==> !rendersEnabled || selected[slot].None?
    {
      r := renders[slot];
    }

    /** `steve_callback` does not panic for `hash`. */
    predicate TextureFits(hash: u64)
      reads this, selected, renders
      requires Valid()
    {
      match SlotOf(host.nutexbFiles, hash)
      case None => true
      case Some(slot) =>
        match TexturePlan(host, selected[slot], slot)
        case None => true
        case Some(c) => Fits(c)
    }

    /**
     * `steve_callback`: an unknown hash is declined before the buffer is
     * touched; a known one writes the slot's texture (or its fallback file),
     * relocates the footer and always reports MAX_FILE_SIZE.
     */
    method SteveCallback(hash: u64, data: array<byte>) returns (r: Option<nat>)
      requires Valid() && data.Length == MAX_FILE_SIZE
      requires TextureFits(hash)
      modifies data
      ensures hash !in host.nutexbFiles ==> r.None? && data[..] == old(data[..])
      ensures hash in host.nutexbFiles ==>
        var slot := SlotOf(host.nutexbFiles, hash).value;
        match TexturePlan(host, selected[slot], slot)
        case None => r.None? && data[..] == old(data[..])
        case Some(c) => r == Some(MAX_FILE_SIZE) && data[..] == Packed(old(data[..]), c)
    {
      var position := SlotOf(host.nutexbFiles, hash);
      if position.None? {
        return None;
      }
      var slot := position.value;
      var skinPath := selected[slot];
      var plan := TexturePlan(host, skinPath, slot);
      if plan.None? {
        return None;
      }
      Pack(data, plan.value);
      r := Some(MAX_FILE_SIZE);
    }

    /** `steve_stock_callback` does not panic for `hash` with a buffer of `capacity` bytes. */
    predicate StockFits(hash: u64, capacity: nat)
      reads this, selected, renders
      requires Valid()
    {
      match SlotOf(host.stockIcons, hash)
      case None => true
      case Some(slot) =>
        match selected[slot]
        case None => true
        case Some(p) => |StockIconFile(host, p)| <= capacity
    }

    /**
     * `steve_stock_callback`: declines an unknown hash and a slot with no
     * skin selected without writing; otherwise writes the icon's bntx file
     * and reports its length.
     */
    method StockCallback(hash: u64, data: array<byte>) returns (r: Option<nat>)
      requires Valid() && data.Length == MAX_STOCK_ICON_SIZE
      requires StockFits(hash, data.Length)
      modifies data
      ensures hash !in host.stockIcons ==> r.None? && data[..] == old(data[..])
      ensures hash in host.stockIcons ==>
        var slot := SlotOf(host.stockIcons, hash).value;
        match selected[slot]
        case None => r.None? && data[..] == old(data[..])
        case Some(p) => r == Some(|StockIconFile(host, p)|) && data[..] == Written(old(data[..]), StockIconFile(host, p))
      ensures r.Some? ==> r.value <= MAX_STOCK_ICON_SIZE
    {
      var position := SlotOf(host.stockIcons, hash);
      if position.None? {
        return None;
      }
      var skinPath := selected[position.value];
      if skinPath.None? {
        return None;
      }
      var file := StockIconFile(host, skinPath.value);
      WriteAll(data, file);
      r := Some(|file|);
    }

    /** A portrait callback does not panic for `hash` with a buffer of `capacity` bytes. */
    predicate PortraitFits(variant: Portrait, hash: u64, capacity: nat)
      reads this, selected, renders
      requires Valid()
    {
      match SlotOf(host.PortraitTable(variant), hash)
      case None =>
        variant == Chara3 && host.loadOriginal(hash).Some? ==> |host.loadOriginal(hash).value| <= capacity
      case Some(slot) =>
        match renders[slot]
        case None => true
        case Some(render) => |PortraitFile(host, variant, render)| <= capacity
    }

    /**
     * `chara_3_callback`, `chara_4_callback` and `chara_6_callback`: a known
     * hash whose slot has a cached render gets that render's portrait file;
     * a slot without a render is declined without writing. An unknown hash is
     * declined too, except that `chara_3_callback` passes it to the host's
     * original loader. These callbacks exist only in builds with the
     * `renders` feature.
     */
    method PortraitCallback(variant: Portrait, hash: u64, data: array<byte>) returns (r: Option<nat>)
      requires Valid() && data.Length == MaxPortraitSize(variant)
      requires rendersEnabled
      requires PortraitFits(variant, hash, data.Length)
      modifies data
      ensures hash !in host.PortraitTable(variant) ==>
        if variant == Chara3 && host.loadOriginal(hash).Some? then
          r == Some(|host.loadOriginal(hash).value|) && data[..] == Written(old(data[..]), host.loadOriginal(hash).value)
        else
          r.None? && data[..] == old(data[..])
      ensures hash in host.PortraitTable(variant) ==>
        var slot := SlotOf(host.PortraitTable(variant), hash).value;
        match renders[slot]
        case None => r.None? && data[..] == old(data[..])
        case Some(render) =>
          r == Some(|PortraitFile(host, variant, render)|) &&
          data[..] == Written(old(data[..]), PortraitFile(host, variant, render))
    {
      var position := SlotOf(host.PortraitTable(variant), hash);
      if position.None? {
        if variant == Chara3 {
          var original := host.loadOriginal(hash);
          if original.Some? {
            WriteAll(data, original.value);
            return Some(|original.value|);
          }
        }
        return None;
      }
      var output := GetRender(position.value);
      if output.None? {
        return None;
      }
      var file := PortraitFile(host, variant, output.value);
      WriteAll(data, file);
      r := Some(|file|);
    }
  }
}
