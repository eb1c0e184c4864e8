# Minecraft skins for Smash Ultimate: a Dafny model of the substitution core

This project models the byte- and table-level bookkeeping of `src/lib.rs` in the
`smash-minecraft-skins` plugin. The plugin replaces Steve's textures, stock icons and
portraits with a skin the player picks. The model covers five parts:

- **Locator** (`Locator.dfy`). The exact first-match search of the 12-byte signature of
  the character-select routine in the text region. The hook offset falls back to
  `0x66e140` (build 13.0.2) when the signature is not found.
- **Packer** (`Packer.dfy`). The fixed texture buffer of `MAX_FILE_SIZE = 1024*1024*4 + 0xb0`
  bytes. The nutexb file is written at offset 0. If it is smaller than the buffer, its
  trailing 0xb0-byte footer is copied to the last 0xb0 bytes of the buffer, and
  `MAX_FILE_SIZE` is reported as the written length.
- **Dispatch** (`Dispatch.dfy`). The hash-to-slot lookup (first matching index per
  table), the legacy-layout decision `width == height * 2`, and what each route produces.
- **Plugin state** (`Plugin.dfy`, class `MinecraftSkins.Plugin`). The statics
  `FIGHTER_SELECTED_OFFSET`, `SELECTED_SKINS`, `RENDERS` and `LAST_SELECTED`, plus every
  hook and file callback as a method over them.
- **Common** (`Common.dfy`). `byte`, `u64` and `Option`.

The object invariant `Plugin.Valid()` says that every cached render is the render of the
slot's selected path. With the `renders` feature off, every render slot is empty. So
`GetRender` returns nothing exactly when renders are off or the slot has no selection.

The relocation copies the file's own footer, `[real_size - 0xb0, real_size)`, up to the
top window `[MAX_DATA_SIZE, MAX_FILE_SIZE)` of the buffer (`src/lib.rs:111-116`,
`src/lib.rs:138-143`). `split_at_mut` keeps the two ranges disjoint, so the copy reads only
bytes it does not write.

## Model

| member | source | states |
|---|---|---|
| `Locator.FindFrom` | src/lib.rs:341-343 | the result from window `i` on is a matching window, and no earlier window from `i` matches; `None` means no window from `i` matches |
| `Locator.FindSubsequence` | src/lib.rs:341-343 | a result `i` has `i + |needle| <= |haystack|` and `haystack[i..i+|needle|] == needle`; no smaller index matches; `None` iff no index matches; a region shorter than the needle gives `None`; an empty needle is excluded because `windows(0)` panics |
| `Locator.FindSubsequenceExtend` | src/lib.rs:341-343 | appending bytes to a region that already contains the signature does not change the first match |
| `Locator.ResolveOffset` | src/lib.rs:351-355 | if the signature occurs, the offset is its lowest occurrence; otherwise the offset is unchanged |
| `MinecraftSkins.Plugin.SearchOffsets` | src/lib.rs:345-357 | the new hook offset is the resolved offset, starting from the old one |
| `MinecraftSkins.Plugin.constructor` | src/lib.rs:38-69 | at start every path and render slot is empty, the offset is `0x66e140` and `LAST_SELECTED` is `0xFF` |
| `MinecraftSkins.Plugin.PlayReportHook` | src/lib.rs:76-81 | the play-report hook resets `LAST_SELECTED` to `0xFF` |
| `MinecraftSkins.Plugin.FighterSelected` | src/lib.rs:206-236 | an event for another fighter changes nothing; for Steve only `selected[slot]` becomes the menu's path, and under `renders` only `renders[slot]` becomes that path's render, or `None` when the path is `None`; the slot invariant is kept |
| `MinecraftSkins.Plugin.GetRender` | src/lib.rs:249-256 | returns the slot's cached render; returns nothing iff renders are off or the slot has no selection |
| `Dispatch.SlotFrom` | src/lib.rs:90 | the result from index `i` on is the first index holding the hash; `None` iff no index from `i` holds it |
| `Dispatch.SlotOf` | src/lib.rs:90 | the slot is the first index of the hash in the table; `None` iff the hash is not in the table |
| `Dispatch.TexturePlan` | src/lib.rs:96-132 | nothing is produced iff no skin is selected and the fallback file cannot be read; a selected skin's real size is counted from the normalised, colour-corrected image; the fallback file's real size is its length |
| `Dispatch.RenderFor` | src/lib.rs:221-233 | a selection with a path has a render; no path means no render |
| `MinecraftSkins.Plugin.SteveCallback` | src/lib.rs:88-149 | an unknown hash returns `None` and leaves the buffer as it was; a known hash with nothing to write also returns `None` and does not write; otherwise the buffer becomes the packed container and the result is `MAX_FILE_SIZE` |
| `MinecraftSkins.Plugin.StockCallback` | src/lib.rs:151-180 | an unknown hash, or a slot with no skin, returns `None` without writing; otherwise the icon file is written at offset 0, its length is returned, and that length is at most `MAX_STOCK_ICON_SIZE` |
| `MinecraftSkins.Plugin.PortraitCallback` | src/lib.rs:258-339 | a known hash whose slot has a render gets that render's portrait file and its length; a slot without a render returns `None` without writing; an unknown hash returns `None`, except for the chara_3 route, which hands it to the host's original loader |
| `Dispatch.IsLegacyLayout` | src/lib.rs:124 | a skin uses the legacy layout exactly when its width is twice its height |
| `Dispatch.Normalize` | src/lib.rs:162-167 | a legacy-layout skin is converted to the modern layout; a square skin of non-zero height passes through unchanged |
| `Dispatch.TextureImage` | src/lib.rs:121-128 | the texture route converts a legacy skin and then colour-corrects it; a square skin is only colour-corrected |
| `Dispatch.StockIconFile` | src/lib.rs:157-174 | the icon file is the bntx of the icon generated from the skin, converted first if it is in the legacy layout, and never colour-corrected |
| `Dispatch.PortraitFile` | src/lib.rs:270-280 | the portrait file is the bntx of the variant's chara image, built from the cached render with the variant's mask and placement |
| `Packer.TextureRealSize` | src/lib.rs:132 | the real size always includes the 0xb0-byte footer, and a 1024x1024 image gives exactly `MAX_FILE_SIZE` |
| `Packer.Relocatable` | src/lib.rs:111-115 | the relocation does not panic exactly when the file fills the buffer, or when it holds a whole footer and ends at or below `MAX_DATA_SIZE` |
| `MinecraftSkins.Plugin.TextureFits` | src/lib.rs:109-142 | `steve_callback` does not panic: the file it writes fits the buffer, and its real size is one the relocation accepts |
| `MinecraftSkins.Plugin.StockFits` | src/lib.rs:170-174 | `steve_stock_callback` does not panic: the icon file fits the buffer |
| `MinecraftSkins.Plugin.PortraitFits` | src/lib.rs:278-284 | a portrait callback does not panic: the portrait file, or chara_3's original file, fits the buffer |
| `Packer.BoundedTextureRelocatable` | src/lib.rs:132-143 | an image of at most 1024x1024 gives a real size the relocation accepts; the real size equals `MAX_FILE_SIZE` iff the image is exactly 1024x1024 |
| `Packer.Written` | src/lib.rs:109 | after the cursor write, the bytes sit at offset 0 and the rest of the buffer is untouched |
| `Packer.Relocated` | src/lib.rs:138-143 | the lower `MAX_DATA_SIZE` bytes are unchanged; the top 0xb0 bytes equal the old `[real_size - 0xb0, real_size)`; a full-size file is left exactly as written |
| `Packer.RelocatedIdempotent` | src/lib.rs:111-116 | doing the relocation twice gives the same buffer as doing it once |
| `Packer.PackedRoundTrip` | src/lib.rs:107-118 | for a file whose real size is its length, the packed buffer holds the whole file at offset 0 and a copy of its footer in the top 0xb0 bytes |
| `Packer.WriteAll` | src/lib.rs:109 | the buffer array becomes the cursor write of the bytes |
| `Packer.RelocateFooter` | src/lib.rs:111-116 | the buffer array becomes the relocation of its old contents |
| `Packer.Pack` | src/lib.rs:134-143 | the buffer array becomes the write followed by the relocation |

## Left out

- Image decoding (`image::load_from_memory`, `to_rgba8`) and file reads (`fs::read`) are foreign code. The `Host` value supplies them as total functions, so the panics in the source's `unwrap()` calls on a bad file are not modelled.
- `convert_to_modern_skin`, `color_correct`, `stock_generation::gen_stock_image`, `minecraft_render::create_render` and `create_chara_image` are opaque `Host` functions. Only the `width == height * 2` decision and the order in which each route applies them are modelled. The `f32` placement constants of the portraits stay inside the opaque function.
- `nutexb::writer::write_nutexb` and `bntx::BntxFile::write` are foreign serialisers. Their output bytes are `Host` functions of the image.
- The hash tables of `skin_files`, the `FIGHTER_KIND_PICKEL` constant and the skin menu's `get_skin_path` come from modules this model does not include. The tables and the constant are `Host` fields. The menu's path is a parameter of `FighterSelected`.
- `load_original_file` is a host callback. The model assumes it writes the original file at offset 0 and returns the file's length, or returns `None` without writing.
- Panics are preconditions, not modelled outcomes. These are: a write that overruns the buffer (`write_all(..).unwrap()`); a relocation size outside `Relocatable` (subtraction underflow or out-of-range slice); a slot byte of 8 or more for Steve. `TextureFits`, `StockFits` and `PortraitFits` state those conditions.
- `getRegionAddress`, the raw `FighterInfo` pointer cast and the skyline hook installation (`main`) are raw memory and foreign calls. The text region, the fighter id and the fighter slot are plain inputs.
- Mutexes and the atomic `LAST_SELECTED`: each entry point is modelled as one step that runs alone, and `Plugin.Valid()` holds only between entry points that run alone. The model does not capture interleavings between threads. `css_fighter_selected` stores the path under one lock, and that guard is dropped at the end of `src/lib.rs:217`, before the render lock is taken at `src/lib.rs:219`. So a concurrent portrait request can see the new path with the old render. Two racing selections of one slot can also leave a render that does not match the stored path.
- The `usize` product `height * width * 4` is computed on unbounded integers. It cannot overflow for images that fit the buffer.
- `PlayReportHook` does not model the pass-through call `original!()(a, b, c)` or its return value (`src/lib.rs:80`). That call is hook machinery that hands control back to the host.
- `PortraitCallback` requires the `renders` feature: without it the three portrait callbacks are not compiled or installed (`src/lib.rs:258`, `src/lib.rs:288`, `src/lib.rs:315`, `src/lib.rs:372-384`).
- The warning `println!` on a failed scan is output only, and is not modelled.
- The `SKINS` menu, `keyboard` and `minecraft_api` modules are user interface and network code, and are not part of this model.
