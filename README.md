# SwiftTerm character sets, modelled in Dafny

`CharSets` is the character-set registry of the SwiftTerm terminal emulator.
When a host sends an ISO/IEC 2022 designation such as ESC ( 0 (DEC line
drawing) or ESC ( % 6 (Portuguese), the terminal looks the final byte, or
the intermediate and final byte, up in one of two registries. From then on
every printable byte routed through that slot is shown through the table
found there. A table only overrides some printable ASCII bytes. Any other
byte, and any byte seen while no set is designated, is shown as itself.

The model, in `charsets.dfy` (module `CharSets`), has these parts:

- The sixteen substitution tables, copied entry for entry. Keys are written
  as byte values and glyphs as `char` literals.
- The single-byte registry, built by `InitAll` one insert at a time, just as
  the source does. The aliases '2', 'C', 'E' and 'H' are made by copying the
  entry already stored under '0', '5', '6' and '7'. The registry is also
  stated declaratively as `All`.
- The packing of a two-byte designator into a 16-bit key (`MultiByteKey`),
  and the multi-byte registry built by `InitMultiByte`, stated declaratively
  as `MultiByte`.
- The lookups callers make (`LookupSingle`, `LookupMulti`).
- The null default charset.
- The caller's fallback convention (`Translate`): an entry of the table if
  there is one, otherwise the byte itself.

The proved properties include:

- The key round-trips and is injective.
- Both registries have exactly the expected domains, and each reaches exactly its own sets.
- The aliases share content-equal tables.
- The 'B' set is empty.
- Every table key lies in 0x21–0x7E.
- Four named glyphs have the expected values.
- The null default behaves like the 'B' set.

## Model

| member | source | states |
|---|---|---|
| CharSets.MultiByteKey | Sources/SwiftTerm/CharSets.swift:340-342 | the packed key holds the intermediate byte in its high byte and the final byte in its low byte, so both come back out of it |
| CharSets.ShiftOrIsMultiplyAdd | Sources/SwiftTerm/CharSets.swift:340-342 | on 16-bit words, shifting prefix left by 8 and or-ing in code equals `prefix * 0x100 + code`, and `>> 8` and `& 0xFF` recover prefix and code |
| CharSets.ShiftOrMatchesMultiByteKey | Sources/SwiftTerm/CharSets.swift:340-342 | for every pair of bytes, the source's 16-bit `UInt16(prefix) << 8` or-ed with `UInt16(code)`, read as an integer, equals the model's `MultiByteKey(prefix, code)`: the shift-or never overflows |
| CharSets.MultiByteKeyInjective | Sources/SwiftTerm/CharSets.swift:340-342 | two designator pairs get the same key exactly when they are the same pair |
| CharSets.MultiByteKeySplit | Sources/SwiftTerm/CharSets.swift:340-342 | every 16-bit key is the packing of its own high and low byte |
| CharSets.InitAll | Sources/SwiftTerm/CharSets.swift:21-337 | the step-by-step inserts yield the registry `All`: its domain is exactly the 18 designators `0 2 A B 4 5 C R Q K Y 6 E Z 7 H = >`, and each alias holds the same entry as its canonical designator |
| CharSets.InitMultiByte | Sources/SwiftTerm/CharSets.swift:344-382 | the two inserts yield the registry `MultiByte`, whose keys are exactly the packed keys of "% 6" and "% 2" |
| CharSets.LookupSingle | Sources/SwiftTerm/CharSets.swift:12 | reading the single-byte registry finds a table exactly when the byte is one of the 18 designators |
| CharSets.LookupMulti | Sources/SwiftTerm/CharSets.swift:16 | reading the multi-byte registry under the packed key finds a table exactly for intermediate '%' with final '6' or '2' |
| CharSets.SingleRegistryDomain | Sources/SwiftTerm/CharSets.swift:21-337 | the single-byte registry's keys are exactly the 18 designators |
| CharSets.MultiByteRegistryDomain | Sources/SwiftTerm/CharSets.swift:344-382 | the keys of "% 6" and "% 2" are 0x2536 and 0x2532, they differ, and they are the multi-byte registry's only keys |
| CharSets.SingleRegistryReach | Sources/SwiftTerm/CharSets.swift:21-337 | some designator of the single-byte registry selects a set exactly when that set is neither Portuguese nor Turkish |
| CharSets.MultiByteRegistryReach | Sources/SwiftTerm/CharSets.swift:344-382 | some key of the multi-byte registry selects a set exactly when that set is Portuguese or Turkish |
| CharSets.MultiByteDesignations | Sources/SwiftTerm/CharSets.swift:346-379 | "% 6" selects the Portuguese table and "% 2" the Turkish table |
| CharSets.DecSpecialGraphicsAlias | Sources/SwiftTerm/CharSets.swift:70 | '2' is registered and selects a table equal, entry for entry, to that of '0' |
| CharSets.FinnishAlias | Sources/SwiftTerm/CharSets.swift:120 | 'C' is registered and selects a table equal, entry for entry, to that of '5' |
| CharSets.NorwegianDanishAlias | Sources/SwiftTerm/CharSets.swift:208 | 'E' is registered and selects a table equal, entry for entry, to that of '6' |
| CharSets.SwedishAlias | Sources/SwiftTerm/CharSets.swift:243 | 'H' is registered and selects a table equal, entry for entry, to that of '7' |
| CharSets.UsSetIsEmpty | Sources/SwiftTerm/CharSets.swift:85 | 'B' is registered and its table overrides no byte |
| CharSets.SpecialGraphicsHorizontalLine | Sources/SwiftTerm/CharSets.swift:53 | under '0', 'q' is shown as U+2500 |
| CharSets.BritishPoundSign | Sources/SwiftTerm/CharSets.swift:78 | under 'A', '#' is shown as U+00A3 |
| CharSets.PortugueseATilde | Sources/SwiftTerm/CharSets.swift:357 | under "% 6", '{' is shown as U+00E3 |
| CharSets.TurkishDottedCapitalI | Sources/SwiftTerm/CharSets.swift:369 | under "% 2", '@' is shown as U+0130 |
| CharSets.DefaultCharsetIsNull | Sources/SwiftTerm/CharSets.swift:18-19 | the default charset is null |
| CharSets.DefaultAgreesWithUsSet | Sources/SwiftTerm/CharSets.swift:18-19 | the null default is the 'B' set: through either, every byte is shown as itself |
| CharSets.DecSpecialGraphicsPrintable | Sources/SwiftTerm/CharSets.swift:35-67 | the DEC Special Graphics table overrides printable ASCII (0x21–0x7E) only |
| CharSets.BritishPrintable | Sources/SwiftTerm/CharSets.swift:77-79 | the British table overrides printable ASCII only |
| CharSets.DutchPrintable | Sources/SwiftTerm/CharSets.swift:92-102 | the Dutch table overrides printable ASCII only |
| CharSets.FinnishPrintable | Sources/SwiftTerm/CharSets.swift:109-119 | the Finnish table overrides printable ASCII only |
| CharSets.FrenchPrintable | Sources/SwiftTerm/CharSets.swift:127-137 | the French table overrides printable ASCII only |
| CharSets.FrenchCanadianPrintable | Sources/SwiftTerm/CharSets.swift:144-155 | the French-Canadian table overrides printable ASCII only |
| CharSets.GermanPrintable | Sources/SwiftTerm/CharSets.swift:162-171 | the German table overrides printable ASCII only |
| CharSets.ItalianPrintable | Sources/SwiftTerm/CharSets.swift:178-189 | the Italian table overrides printable ASCII only |
| CharSets.NorwegianDanishPrintable | Sources/SwiftTerm/CharSets.swift:196-207 | the Norwegian/Danish table overrides printable ASCII only |
| CharSets.SpanishPrintable | Sources/SwiftTerm/CharSets.swift:215-224 | the Spanish table overrides printable ASCII only |
| CharSets.SwedishPrintable | Sources/SwiftTerm/CharSets.swift:231-242 | the Swedish table overrides printable ASCII only |
| CharSets.SwissPrintable | Sources/SwiftTerm/CharSets.swift:250-263 | the Swiss table overrides printable ASCII only |
| CharSets.DecTechnicalColumns2To5Printable | Sources/SwiftTerm/CharSets.swift:270-304 | DEC Technical entries for 0x21–0x5F have printable keys |
| CharSets.DecTechnicalColumns6To7Printable | Sources/SwiftTerm/CharSets.swift:305-334 | DEC Technical entries for 0x60–0x7E have printable keys |
| CharSets.DecTechnicalPrintable | Sources/SwiftTerm/CharSets.swift:270-334 | the whole DEC Technical table overrides printable ASCII only |
| CharSets.PortuguesePrintable | Sources/SwiftTerm/CharSets.swift:353-360 | the Portuguese table overrides printable ASCII only |
| CharSets.TurkishPrintable | Sources/SwiftTerm/CharSets.swift:367-379 | the Turkish table overrides printable ASCII only |
| CharSets.GlyphsPrintable | Sources/SwiftTerm/CharSets.swift:21-382 | every character set either registry can hold overrides printable ASCII only |
| CharSets.SingleTablesPrintable | Sources/SwiftTerm/CharSets.swift:21-337 | every key of every table in the single-byte registry lies in 0x21–0x7E |
| CharSets.MultiTablesPrintable | Sources/SwiftTerm/CharSets.swift:344-382 | every key of every table in the multi-byte registry lies in 0x21–0x7E |
| CharSets.MultiNonPrintablePassesThrough | Sources/SwiftTerm/CharSets.swift:344-382 | no registered multi-byte set changes a control byte, space or DEL: under the identity fallback, such a byte is shown as itself whatever the designator pair |
| CharSets.NonPrintablePassesThrough | Sources/SwiftTerm/CharSets.swift:21-337 | no registered single-byte set changes a control byte, space or DEL: under the identity fallback, such a byte is shown as itself whatever the designator |

## Left out

- Each registry entry is the national set it selects (`NationalSet`); the set's table is `Glyphs` of it. The source stores the table itself, and an alias entry holds a copy of its canonical entry's table. Swift dictionaries have value semantics, so a copy and the original hold the same contents. Storing the set instead keeps the registry proofs small and changes no lookup result: `LookupSingle` and `LookupMulti` return the table.
- Glyphs are single Unicode scalars (`char`), not Swift `String`s. Every glyph in the source tables is one scalar. Grapheme clustering and string comparison are not modelled.
- The `Character(...).asciiValue!` conversions that turn ASCII characters into bytes are written as byte literals.
- Bytes and keys are bounded integers (`Byte`, `Key`), not bit-vectors. `MultiByteKey` packs with `prefix * 0x100 + code`. `ShiftOrMatchesMultiByteKey` proves that the source's 16-bit shift-or, read as an integer, equals this key for every pair of bytes.
- The DEC Technical table is written as the union of two halves, 0x21–0x5F and 0x60–0x7E. Its contents are the same 63 entries.
- Lazy one-time initialisation of the static registries, and its thread safety, are not modelled. `InitAll` and `InitMultiByte` are the constructors, and `All` and `MultiByte` are their results.
- `defaultCharset` is a mutable static. The model only has its initial value, null. Assignments to it by the terminal are not part of this model.
- Applying a table to a byte is done by the terminal's escape-sequence interpreter, which is not part of this model. `Translate` records the convention stated for that caller: the table's entry if present, otherwise the byte itself. `NonPrintablePassesThrough` and `DefaultAgreesWithUsSet` are stated through it.
