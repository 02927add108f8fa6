# ProxyTool, modelled in Dafny

ProxyTool turns a decklist into printable proxy sheets. It reads the decklist,
one card per line as `<quantity>x <name>`, with a hand-written serde lexer
(`CardDeserializer`). It then builds a name-keyed card database from the bulk
card list (`BulkDB::try_from`, which keeps the first entry of each name). Each
card of the deck is given its entry's PNG link. The images are downloaded, and
the cards are composited nine to a page on A4 sheets at 300 DPI.

This project models that core and proves properties of it:

- `rust_std.dfy` (`RustStd`): `Option`, `Result`, `u16`, `u32`, the byte
  type and `Min` (`std::cmp::min`).
- `consts.dfy` (`Consts`): the page and card geometry, and the margins derived
  from it. The margins are declared `nat`, so the verifier checks that the
  `usize` subtractions cannot underflow.
- `parser.dfy` (`Parser`): the lexer as a class `CardDeserializer` whose only
  field is the input still to be read. Each primitive (`PeekChar`, `EatChar`,
  `ParseStr`, `ParseU16`, `DeserializeAny`, `NextElement`) is a method. Each
  method is proved against a pure step function of the input it started from
  (`PeekStep`, `ParseStrStep`, ...). The lexer's properties are lemmas about
  those functions.
- `types.dfy` (`Types`): the bulk-list and decklist records. `TryFrom` models
  `BulkDB::try_from` as a loop. It is proved against `BuildDB`, a fold over
  the list, and the first-entry-wins properties are proved about `BuildDB`.
- `pipeline.dfy` (`Pipeline`): the stages of `main` after parsing:
  - resolution, done in place on an array of cards;
  - the download stage, with the network passed in as a function
    `download: string -> seq<Byte>`;
  - `generate_proxy_pages`, as a loop over chunks of nine that yields, for each
    page, its number and the list of images drawn on it with their pixel
    positions.

Where the `<quantity>x <name>` line convention and the code disagree, the model
follows the code:

- `"3 Island"` lexes as 3 and `"sland"`, because `parse_u16` drops two
  characters after the digits whatever they are.
- A last line without a newline is returned but not consumed.
- Comment and blank lines are a `Syntax` error; they are not skipped.
- The quantity is read but never used: a card is drawn once, whatever its
  quantity.
- Double-faced cards are not split into faces. Resolution reads only the
  entry's top-level images, so a card whose images are only on its faces
  gets no link.
- Images are collected in the order their downloads finish, not in deck order.

## Model

| member | source | states |
|---|---|---|
| Consts.CardsPerPageIsNine | src/consts.rs:10-12 | a page holds a 3 by 3 grid, nine cards |
| Consts.HorizontalMargin | src/consts.rs:2-14 | three card widths fit across A4 at 300 DPI, so the `usize` subtraction cannot underflow; the left margin is 124 px |
| Consts.VerticalMargin | src/consts.rs:3-15 | three card heights fit down the page; the top margin is 195 px, with the half pixel truncated |
| Consts.GridCentred | src/consts.rs:14-15 | the grid is exactly centred across the page and centred to within one pixel down it |
| Parser.Find | src/parser.rs:92 | `find('\n')`: `Some` exactly when the character occurs, and then at its first occurrence |
| Parser.DigitRun | src/parser.rs:111-118 | the digits `parse_u16` consumes: a maximal run of ASCII digits at the front of the input |
| Parser.DecimalValuePrefix | src/parser.rs:113-117 | the accumulator after any prefix of the digits is at most the final value, so if the final value fits in `u16` no intermediate step overflows |
| Parser.PeekStep | src/parser.rs:77-79 | `peek_char`: the first character when the input is non-empty, otherwise `Eof` |
| Parser.CardDeserializer.FromStr | src/parser.rs:58-60 | the deserializer starts with the whole input still to read |
| Parser.CardDeserializer.PeekChar | src/parser.rs:77-79 | returns `PeekStep` of the input and leaves the input unchanged |
| Parser.CardDeserializer.EatChar | src/parser.rs:82-89 | drops one character, or nothing at end of input |
| Parser.ParseStrStep | src/parser.rs:91-107 | `parse_str`: with a newline, input = line + newline + rest, and the line has no newline; without one, the input is returned and left unconsumed; empty input is `Eof` |
| Parser.CardDeserializer.ParseStr | src/parser.rs:91-107 | result and new input are those of `ParseStrStep` on the old input |
| Parser.ParseU16Step | src/parser.rs:109-125 | `parse_u16` always succeeds, with the value of the leading digits; what is left is a suffix of the input, after exactly the digits plus two more characters (or fewer at the end of input); its round trip is `ParseU16RoundTrip` |
| Parser.CardDeserializer.ParseU16 | src/parser.rs:109-125 | the loop's result is the value of the leading digits, and the new input is what follows them with up to two more characters dropped |
| Parser.DeserializeAnyStep | src/parser.rs:134-156 | `deserialize_any`: `Eof` iff the input is empty; a number iff it starts with a digit; a line iff it starts with an ASCII letter; `Syntax` otherwise; an error consumes nothing |
| Parser.CardDeserializer.DeserializeAny | src/parser.rs:134-156 | result and new input are those of `DeserializeAnyStep` |
| Parser.NextElementStep | src/parser.rs:183-192 | `next_element_seed`: `Ok(None)` exactly when the input is empty |
| Parser.CardDeserializer.NextElement | src/parser.rs:183-192 | result and new input are those of `NextElementStep` |
| Parser.FromStrAny | src/parser.rs:62-73 | `from_str` with a visitor that accepts both a number and a line: `Ok` iff deserializing succeeded and consumed everything; `TrailingCharacters` iff it succeeded with input left over |
| Parser.FromStr | src/parser.rs:62-73 | the method that drives a fresh deserializer returns `FromStrAny` of its input |
| Parser.ParseU16RoundTrip | src/parser.rs:109-125 | a decimal number followed by a two-character separator that does not start with a digit reads back as that number, with the separator consumed |
| Parser.ParseU16WithoutDigits | src/parser.rs:109-125 | without leading digits the number is 0, and up to two characters are still dropped |
| Parser.ParseU16LowerX | src/parser.rs:109-125 | `"3x Island"` reads 3 and leaves `"Island"` |
| Parser.ParseU16UpperX | src/parser.rs:109-125 | `"3X Island"` reads 3 and leaves `"Island"` |
| Parser.ParseU16NonAsciiSeparator | src/parser.rs:82-89 | `"3× Island"` reads 3 and leaves `"Island"`: `eat_char` drops a whole character, non-ASCII or not |
| Parser.ParseU16NoX | src/parser.rs:118-121 | `"3 Island"` reads 3 and leaves `"sland"` |
| Parser.ParseU16DropsTwoWhateverTheyAre | src/parser.rs:118-121 | `"3Island"` reads 3 and leaves `"land"` |
| Parser.DecklistLineRoundTrip | src/parser.rs:134-144 | a line `<n>x <name>\n` lexes as the number n, then as the name, with the newline consumed and the rest untouched |
| Parser.UnterminatedLastLineIsNotConsumed | src/parser.rs:98-101 | a last line without a newline is returned while the input stays the same |
| Parser.CommentLineIsSyntaxError | src/parser.rs:138-142 | lines starting with `#`, `/`, a space or a tab are a `Syntax` error, both for `deserialize_any` and for `from_str` |
| Parser.FromStrOfOneLine | src/parser.rs:66-72 | with the accepting visitor, `"Island\n"` is accepted; `"Island"` gives `TrailingCharacters` |
| Parser.FromStrOfNumber | src/parser.rs:66-72 | with the accepting visitor, `"3"` is accepted as 3; `"3x Island"` gives `TrailingCharacters` |
| Parser.ParseQuantityRoundTrip | src/parser.rs:118-121 | corrected separator: n, then `x`, `X` or nothing, then blanks (at least one of the two present), reads back as n and leaves exactly the name |
| Parser.ParseQuantityNoX | src/parser.rs:118-121 | corrected separator: `"3 Island"` reads 3 and leaves `"Island"` |
| Parser.ParseQuantityKeepsLeadingX | src/parser.rs:118-121 | corrected separator: `"2 Xenagos"` keeps the name's leading `X` |
| Parser.ParseLineStep | src/parser.rs:98-101 | corrected last line: every successful read consumes input; input = line + newline + rest, or the whole input is the line |
| Parser.ParseLineDiffersOnlyOnLastLine | src/parser.rs:91-107 | the correction returns the same results as `parse_str` and differs only in consuming an unterminated last line |
| Types.TryFrom | src/types.rs:200-243 | never fails; the map is `BuildDB` of the list; its keys are exactly the names in the list; the first entry of each name is kept; every entry is keyed by its own name; one entry per distinct name; every other entry is logged as a duplicate, in order |
| Types.BuildDBKeys | src/types.rs:205-241 | the keys of the database are exactly the names in the bulk list |
| Types.BuildDBKeepsFirst | src/types.rs:220-238 | the entry stored under a name is the first entry in the list with that name |
| Types.InsertIfVacant | src/types.rs:220-238 | one loop step: the entry's name becomes a key, no existing entry is overwritten (the `Occupied` arm), and a vacant name gets the entry (the `Vacant` arm) |
| Types.BuildDB | src/types.rs:205-241 | the map the loop builds from the whole list; every stored entry's `name` equals its key; its keys, first-entry-wins and size are `BuildDBKeys`, `BuildDBKeepsFirst` and `BuildDBSize` |
| Types.BuildDBSize | src/types.rs:205-241 | the database has one entry per distinct name, so no more than the list |
| Types.DuplicateCount | src/types.rs:220-238 | stored entries plus logged duplicates account for every entry of the list |
| Types.DuplicateLeavesDBUnchanged | src/types.rs:221-222 | a later entry whose name is already present leaves the map unchanged and is logged |
| Types.FirstOfTwoDuplicatesKept | src/types.rs:220-238 | of two entries with the same name, the first is stored and the second logged |
| Types.DisplayShowsPngOnly | src/types.rs:182-186 | an image set is displayed as its PNG link and nothing else |
| Pipeline.PngLink | src/main.rs:94 | a link exists iff the entry has top-level images, and it is their `Display`, the PNG link |
| Pipeline.ResolveCard | src/main.rs:92-95 | resolving a card changes nothing but its link |
| Pipeline.ResolveCards | src/main.rs:91-96 | every card of the deck is resolved in place; their number and order are kept |
| Pipeline.ResolvedLink | src/main.rs:92-95 | a fresh card gets a link iff its exact name is in the database and that entry has top-level images; the link is their PNG (their `Display`) |
| Pipeline.UnknownNameUnchanged | src/main.rs:92-95 | a name that is not a key leaves the card as it was: no fuzzy or case-blind match |
| Pipeline.ResolutionIgnoresFaces | src/main.rs:92-95 | the entry's faces and layout never affect resolution |
| Pipeline.ResolveIdempotent | src/main.rs:91-96 | resolving twice is resolving once |
| Pipeline.ResolvesToFirstBulkEntry | src/main.rs:92-95 | against a database built from a bulk list, a card gets the link of the first list entry with its name |
| Pipeline.FetchCard | src/main.rs:107-116 | only `data` changes; a card without a link is handed back unchanged; otherwise its data is the body downloaded from its link |
| Pipeline.NoLinkNoRequest | src/main.rs:114 | a card without a link does not depend on the network and still has no data |
| Pipeline.FetchInOrder | src/main.rs:104-118 | the per-card closure applied across the deck: one result per card, in deck order, each differing from its card only in `data` |
| Pipeline.FetchUnordered | src/main.rs:103-120 | `buffer_unordered(8).collect()`: as many results as cards, and result k is the fetched card at deck position `order[k]`, the k-th download to finish |
| Pipeline.FetchUnorderedIsPermutation | src/main.rs:103-120 | the collected cards are the downloaded deck, rearranged: the same multiset |
| Pipeline.FetchUnorderedSwapsDeck | src/main.rs:119 | two cards whose downloads finish in reverse order come back swapped |
| Pipeline.FetchInDeckOrder | src/main.rs:103-122 | corrected download stage: each result goes into its card's own slot, so the cards come back in deck order, whatever order the downloads finish in |
| Pipeline.Chunks | src/main.rs:138 | `chunks(9)`: every chunk holds 1 to 9 cards, and every chunk but the last holds exactly 9 |
| Pipeline.ChunksShape | src/main.rs:138 | `chunks(9)` gives ceil(n/9) chunks, and chunk p holds cards 9p up to min(9p+9, n) |
| Pipeline.ChunksFlatten | src/main.rs:138 | the chunks put back together are the deck: no card is lost, repeated or moved |
| Pipeline.GenerateProxyPages | src/main.rs:128-159 | ceil(n/9) pages numbered 0, 1, ...; page p holds min(9, n-9p) cards; card k is drawn once, on page k/9 at cell k%9, with its own image |
| Pipeline.CellX | src/main.rs:147-150 | the x coordinate of cell i: never left of the margin, and for the nine cells of a page the card ends inside the page width |
| Pipeline.CellY | src/main.rs:147-150 | the y coordinate of cell i: never above the margin, and the card always ends inside the page height (`i % 3` keeps the row below 3) |
| Pipeline.CellExamples | src/main.rs:147-150 | cells 0, 1, 3 and 8 are at (124,195), (124,1234), (868,195) and (1612,2273): the grid fills column by column |
| Pipeline.CellInsidePage | src/main.rs:147-150 | every one of the nine cells lies inside the A4 page |
| Pipeline.CellsDisjoint | src/main.rs:147-150 | two different cells of a page do not overlap |

## Left out

- Parser.CardDeserializer.ParseU16: the `u16` accumulator is not allowed to
  overflow. The method, `ParseU16Step`, `DeserializeAnyStep`,
  `NextElementStep`, `FromStrAny` and `FromStr` require `FitsU16`, so a
  quantity above 65535 is outside the model. The code panics on it in a debug
  build and wraps in a release build.
- Parser.FromStrAny: `from_str` is modelled with a visitor that accepts both
  a number and a line, so it fits no single target type. serde's type check is
  not modelled. On a string target (`String`), `visit_u16` gives a `Message`
  error; on an integer target (`u32`), `visit_str` does too. So
  `from_str::<String>("3")` and `from_str::<u32>("Island\n")` both fail with
  `Message`, where `FromStrOfNumber` and `FromStrOfOneLine` show the model
  accepting them. The serde derive visitors for `CardEntry` and
  `Vec<CardEntry>` are not modelled: `deserialize_seq`, `deserialize_struct`
  and the way `Option<bool>` is visited. These are generated code that is not
  part of this model. `NextElement` stands for one element read through
  `deserialize_any`.
- The lexer primitives never produce `Message`. It comes from serde's
  `custom`, which the visitors call on a type mismatch or a missing field, and
  that path is not modelled (see `Parser.FromStrAny` above). The `Display`
  text of the errors is not modelled.
- Characters are Unicode scalar values (`seq<char>`), and UTF-8 byte offsets
  are not modelled. Every slice the lexer takes falls on a character boundary:
  after an ASCII digit or a newline, or after `ch.len_utf8()` bytes in
  `eat_char`. So dropping one `char` is the same cut.
- The `BulkEntry` and `CardEntry` serde derives and JSON decoding of the bulk
  list are left out. So are `BulkEntry`'s debug `Display`, and the unused
  `BulkEntryType` and `Colors` enums. The `debug!` log of a duplicate is
  modelled as the list of duplicate names (`logged`).
- Every other part of `main`:
  - command-line parsing;
  - reading the decklist file;
  - loading and decoding the bulk file;
  - the panic when the database fails to load;
  - the `info!` and `warn!` logging.
- Pipeline.FetchCard: assumes that every request and body read succeeds. The
  code unwraps both and panics on a network error. The HTTP client is the
  `download` parameter.
- The concurrency of `buffer_unordered(8)` is not modelled: its bound of
  eight requests in flight, and the timing that decides the completion order.
  The completion order is a parameter: any rearrangement of the deck
  positions.
- Pipeline.GenerateProxyPages: requires every card to have its image data. The
  code unwraps it and panics on a card whose download never happened. PNG
  decoding, the white fill, the pixel overlay and saving
  `<output_dir>/page-<n>.png` are not modelled; a page is its number and the
  images with their positions. The `create_dir_all` and `save` errors and
  `_show_cut_lines` are left out.
- `panels.rs` and `card.rs` are not part of this model.

## Findings

| source | as written | input that shows it | evidently intended | confidence | as-written member | corrected member |
|---|---|---|---|---|---|---|
| src/parser.rs:118-121 | after the digits, `parse_u16` drops the next two characters whatever they are | `"3 Island"` reads 3 and leaves `"sland"` | skip an optional `x`/`X` and the blanks after it, leaving `"Island"` | medium, not executed | Parser.ParseU16NoX | Parser.ParseQuantityRoundTrip |
| src/parser.rs:98-101 | a last line without a newline is returned but the input is not advanced | `"Island"` without a final newline: the line is read and `from_str` then reports `TrailingCharacters` | return the line and consume it, so every successful read makes progress | medium, not executed | Parser.UnterminatedLastLineIsNotConsumed | Parser.ParseLineStep |
| src/main.rs:119 | `buffer_unordered` yields the cards in the order their downloads finish, and the pages are laid out in that order | a two-card deck whose second download finishes first is drawn swapped | pages follow deck order (as `buffered` would give) | high, not executed | Pipeline.FetchUnorderedSwapsDeck | Pipeline.FetchInDeckOrder |
