/**
 * Routing decisions of the file callbacks in src/lib.rs and the collaborators
 * they call. Image decoding, the legacy-to-modern conversion, colour
 * correction, icon and portrait generation, the nutexb and bntx writers, the
 * fallback file on the SD card and the host's original loader are not part
 * of this model: a `Host` value supplies each of them as a total function.
 */
module Dispatch {
  import opened Common
  import opened Packer

  type Path = string

  /** An RGBA image (`image::RgbaImage`). */
  datatype Image = Image(width: nat, height: nat, rgba: seq<byte>)

  /** The three portrait variants, each with its own mask and placement. */
  datatype Portrait = Chara3 | Chara4 | Chara6

  /** Number of fighter slots tracked. */
  const SLOT_COUNT: nat := 8

  const MAX_STOCK_ICON_SIZE: nat := 0x9c68
  const MAX_CHARA_3_SIZE: nat := 0x727068
  const MAX_CHARA_4_SIZE: nat := 0x2d068
  const MAX_CHARA_6_SIZE: nat := 0x81068

  /** Size of the buffer the host supplies for a portrait file. */
  function MaxPortraitSize(p: Portrait): nat
  {
    match p
    case Chara3 => MAX_CHARA_3_SIZE
    case Chara4 => MAX_CHARA_4_SIZE
    case Chara6 => MAX_CHARA_6_SIZE
  }

  /** The collaborators and constants the core reads but does not define. */
  datatype Host = Host(
    pickelKind: int,                          // FIGHTER_KIND_PICKEL
    nutexbFiles: seq<u64>,                    // STEVE_NUTEXB_FILES
    stockIcons: seq<u64>,                     // STEVE_STOCK_ICONS
    chara3: seq<u64>,                         // STEVE_CHARA_3
    chara4: seq<u64>,                         // STEVE_CHARA_4
    chara6: seq<u64>,                         // STEVE_CHARA_6
    decode: Path -> Image,                    // fs::read, load_from_memory, to_rgba8
    readDefault: nat -> Option<seq<byte>>,    // fs::read of the slot's fallback nutexb, `.ok()`
    toModern: Image -> Image,                 // convert_to_modern_skin
    colorCorrect: Image -> Image,             // color_correct
    writeNutexb: Image -> seq<byte>,          // nutexb::writer::write_nutexb
    genStock: Image -> Image,                 // stock_generation::gen_stock_image
    createRender: Image -> Image,             // minecraft_render::create_render
    charaImage: (Portrait, Image) -> Image,   // create_chara_image with the variant's mask and placement
    writeBntx: Image -> seq<byte>,            // BntxFile::from_image(..).write
    loadOriginal: u64 -> Option<seq<byte>>    // load_original_file
  )
  {
    /** Every hash table has one entry per slot. */
    predicate Valid()
    {
      |nutexbFiles| == SLOT_COUNT && |stockIcons| == SLOT_COUNT &&
      |chara3| == SLOT_COUNT && |chara4| == SLOT_COUNT && |chara6| == SLOT_COUNT
    }

    function PortraitTable(p: Portrait): seq<u64>
    {
      match p
      case Chara3 => chara3
      case Chara4 => chara4
      case Chara6 => chara6
    }
  }

  /** `table.iter().position(|&x| x == hash)` started at index `i`. */
  function SlotFrom(table: seq<u64>, hash: u64, i: nat): (r: Option<nat>)
    decreases |table| - i
    ensures r.Some? ==> i <= r.value < |table| && table[r.value] == hash
    ensures r.Some? ==> forall j :: i <= j < r.value ==> table[j] != hash
    ensures r.None? <==> forall j :: i <= j < |table| ==> table[j] != hash
  {
    if i >= |table| then None
    else if table[i] == hash then Some(i)
    else SlotFrom(table, hash, i + 1)
  }

  /** The slot a hash belongs to: the first index of `hash` in `table`, or `None` if it is absent. */
  function SlotOf(table: seq<u64>, hash: u64): (r: Option<nat>)
    ensures r.Some? ==> r.value < |table| && table[r.value] == hash
    ensures r.Some? ==> forall j :: 0 <= j < r.value ==> table[j] != hash
    ensures r.None? <==> hash !in table
  {
    SlotFrom(table, hash, 0)
  }

  /** A skin twice as wide as it is high uses the legacy layout and is converted. */
  predicate IsLegacyLayout(width: nat, height: nat)
  {
    width == height * 2
  }

  /**
   * Applies the modern-layout conversion exactly when the image is in the
   * legacy layout; a square skin of non-zero height passes through unchanged.
   * A 0x0 image counts as legacy, since 0 == 0 * 2.
   */
  function Normalize(host: Host, skin: Image): (r: Image)
    ensures IsLegacyLayout(skin.width, skin.height) ==> r == host.toModern(skin)
    ensures skin.width == skin.height && skin.height > 0 ==> r == skin
  {
    if IsLegacyLayout(skin.width, skin.height) then host.toModern(skin) else skin
  }

  /** The image `steve_callback` serialises for a selected skin file: normalised, then colour corrected. */
  function TextureImage(host: Host, path: Path): (r: Image)
    ensures var skin := host.decode(path);
      (IsLegacyLayout(skin.width, skin.height) ==> r == host.colorCorrect(host.toModern(skin))) &&
      (skin.width == skin.height && skin.height > 0 ==> r == host.colorCorrect(skin))
  {
    host.colorCorrect(Normalize(host, host.decode(path)))
  }

  /**
   * What `steve_callback` writes for slot `slot` once its hash is recognised:
   * the nutexb of the selected skin, whose real size is counted from the
   * image's dimensions; or, with no skin selected, the slot's fallback file
   * whose real size is its length; or nothing when that file cannot be read.
   */
  function TexturePlan(host: Host, path: Option<Path>, slot: nat): (c: Option<Container>)
    ensures c.None? <==> path.None? && host.readDefault(slot).None?
    ensures path.Some? ==> c.value.realSize == TextureRealSize(TextureImage(host, path.value).width, TextureImage(host, path.value).height)
    ensures path.None? && c.Some? ==> c.value.realSize == |c.value.bytes|
  {
    match path
    case Some(p) =>
      var skin := TextureImage(host, p);
      Some(Container(host.writeNutexb(skin), TextureRealSize(skin.width, skin.height)))
    case None =>
      match host.readDefault(slot)
      case Some(file) => Some(Container(file, |file|))
      case None => None
  }

  /** The bntx file `steve_stock_callback` writes: the icon of the normalised skin, without colour correction. */
  function StockIconFile(host: Host, path: Path): (r: seq<byte>)
    ensures var skin := host.decode(path);
      (IsLegacyLayout(skin.width, skin.height) ==> r == host.writeBntx(host.genStock(host.toModern(skin)))) &&
      (skin.width == skin.height && skin.height > 0 ==> r == host.writeBntx(host.genStock(skin)))
  {
    host.writeBntx(host.genStock(Normalize(host, host.decode(path))))
  }

  /**
   * The render `css_fighter_selected` caches for a selection: colour corrected,
   * then always converted, then rendered; `None` clears the slot.
   */
  function RenderFor(host: Host, path: Option<Path>): (r: Option<Image>)
    ensures r.None? <==> path.None?
  {
    match path
    case Some(p) => Some(host.createRender(host.toModern(host.colorCorrect(host.decode(p)))))
    case None => None
  }

  /** The bntx file a portrait callback writes for a cached render. */
  function PortraitFile(host: Host, variant: Portrait, render: Image): seq<byte>
  {
    host.writeBntx(host.charaImage(variant, render))
  }
}
