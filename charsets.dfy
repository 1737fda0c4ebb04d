/**
 * Character-set registry of a terminal emulator: the tables behind the
 * ISO/IEC 2022 "designate character set" escape sequences ESC ( F (one
 * final byte F) and ESC ( I F (an intermediate byte I, then F), as used by
 * the DEC VT220/VT520 national replacement character sets.
 *
 * A table maps a printable source byte to the glyph shown in its place.
 * The single-byte registry is keyed by the final byte; the multi-byte
 * registry is keyed by the intermediate and final byte packed into 16 bits.
 * Both registries are built once, by a series of keyed inserts, and only
 * read afterwards.
 */
module CharSets {

  datatype Option<+T> = None | Some(value: T)

  /** A byte of the terminal's input stream (an unsigned 8-bit integer). */
  newtype Byte = x: int | 0 <= x < 0x100

  /** A multi-byte registry key (an unsigned 16-bit integer). */
  newtype Key = x: int | 0 <= x < 0x1_0000

  /** A substitution table: source byte to the glyph (one Unicode scalar) shown for it. */
  type Table = map<Byte, char>

  /** The character sets that can be designated. */
  datatype NationalSet =
    | DecSpecialGraphics
    | British
    | UnitedStates
    | Dutch
    | Finnish
    | French
    | FrenchCanadian
    | German
    | Italian
    | NorwegianDanish
    | Spanish
    | Swedish
    | Swiss
    | DecTechnical
    | Portuguese
    | Turkish

  /** The table of each character set. */
  function Glyphs(s: NationalSet): Table
  {
    match s
    case DecSpecialGraphics => DecSpecialGraphicsTable()
    case British => BritishTable()
    case UnitedStates => UnitedStatesTable()
    case Dutch => DutchTable()
    case Finnish => FinnishTable()
    case French => FrenchTable()
    case FrenchCanadian => FrenchCanadianTable()
    case German => GermanTable()
    case Italian => ItalianTable()
    case NorwegianDanish => NorwegianDanishTable()
    case Spanish => SpanishTable()
    case Swedish => SwedishTable()
    case Swiss => SwissTable()
    case DecTechnical => DecTechnicalTable()
    case Portuguese => PortugueseTable()
    case Turkish => TurkishTable()
  }

  /** Graphic ASCII, '!' (0x21) through '~' (0x7E): neither a control byte, space nor DEL. */
  predicate Printable(b: Byte)
  {
    0x21 <= b <= 0x7E
  }

  /** Every byte that the table overrides is printable ASCII. */
  predicate PrintableKeys(t: Table)
  {
    forall b :: b in t ==> Printable(b)
  }

  /**
   * The final bytes of the registered single-byte designations:
   * '0' '2' 'A' 'B' '4' '5' 'C' 'R' 'Q' 'K' 'Y' '6' 'E' 'Z' '7' 'H' '=' '>'.
   */
  function SingleDesignators(): set<Byte>
  {
    {0x30, 0x32, 0x41, 0x42, 0x34, 0x35, 0x43, 0x52, 0x51,
     0x4B, 0x59, 0x36, 0x45, 0x5A, 0x37, 0x48, 0x3D, 0x3E}
  }

  // ---------------------------------------------------------------------
  // Multi-byte designator keys
  // ---------------------------------------------------------------------

  /** The intermediate byte stored in a packed key: its high byte, key >> 8. */
  function KeyPrefix(k: Key): Byte
  {
    (k / 0x100) as Byte
  }

  /** The final byte stored in a packed key: its low byte, key & 0xFF. */
  function KeyCode(k: Key): Byte
  {
    (k % 0x100) as Byte
  }

  /**
   * Packs an intermediate byte and a final byte into one 16-bit registry
   * key, the intermediate byte high and the final byte low.
   */
  function MultiByteKey(prefix: Byte, code: Byte): (k: Key)
    ensures KeyPrefix(k) == prefix
    ensures KeyCode(k) == code
  {
    (prefix as int * 0x100 + code as int) as Key
  }

  /**
   * On 16-bit words, shifting a byte left by 8 and or-ing in a second byte
   * is the same as multiplying by 0x100 and adding, and shifting right by 8
   * or masking with 0xFF takes the two bytes back out.
   */
  lemma ShiftOrIsMultiplyAdd(prefix: bv8, code: bv8)
    ensures ((prefix as bv16) << 8) | (code as bv16) == (prefix as bv16) * 0x100 + (code as bv16)
    ensures (((prefix as bv16) << 8) | (code as bv16)) >> 8 == prefix as bv16
    ensures (((prefix as bv16) << 8) | (code as bv16)) & 0xFF == code as bv16
  {
  }

  /**
   * The key as the source computes it, by shift and or on 16-bit words,
   * is the model's key: the shift-or never overflows, so its value as an
   * integer is the packing of the two bytes.
   */
  lemma ShiftOrMatchesMultiByteKey(prefix: bv8, code: bv8)
    ensures (((prefix as bv16) << 8) | (code as bv16)) as int
            == MultiByteKey(prefix as int as Byte, code as int as Byte) as int
  {
    ShiftOrIsMultiplyAdd(prefix, code);
  }

  /** Distinct (intermediate, final) pairs never share a key. */
  lemma MultiByteKeyInjective(p1: Byte, c1: Byte, p2: Byte, c2: Byte)
    ensures MultiByteKey(p1, c1) == MultiByteKey(p2, c2) <==> p1 == p2 && c1 == c2
  {
  }

  /** Every 16-bit key is the packing of its own two bytes. */
  lemma MultiByteKeySplit(k: Key)
    ensures MultiByteKey(KeyPrefix(k), KeyCode(k)) == k
  {
  }

  // ---------------------------------------------------------------------
  // The registries
  // ---------------------------------------------------------------------

  /**
   * The single-byte registry: the set each final byte designates. Four
   * designators are aliases: '2' for '0', 'C' for '5', 'E' for '6' and
   * 'H' for '7'.
   */
  function All(): map<Byte, NationalSet>
  {
    map[
      0x30 := DecSpecialGraphics,  // 0
      0x32 := DecSpecialGraphics,  // 2
      0x41 := British,             // A
      0x42 := UnitedStates,        // B
      0x34 := Dutch,               // 4
      0x35 := Finnish,             // 5
      0x43 := Finnish,             // C
      0x52 := French,              // R
      0x51 := FrenchCanadian,      // Q
      0x4B := German,              // K
      0x59 := Italian,             // Y
      0x36 := NorwegianDanish,     // 6
      0x45 := NorwegianDanish,     // E
      0x5A := Spanish,             // Z
      0x37 := Swedish,             // 7
      0x48 := Swedish,             // H
      0x3D := Swiss,               // =
      0x3E := DecTechnical         // >
    ]
  }

  /** The multi-byte registry: Portuguese under "% 6", Turkish under "% 2". */
  function MultiByte(): map<Key, NationalSet>
  {
    map[
      0x2536 := Portuguese,
      0x2532 := Turkish
    ]
  }

  /** The charset a slot holds before any designation: none at all. */
  function DefaultCharset(): Option<Table>
  {
    None
  }

  /**
   * Builds the single-byte registry: each set is inserted under its
   * designator, and each alias is made by copying the entry already there.
   */
  method InitAll() returns (all: map<Byte, NationalSet>)
    ensures all == All()
    ensures forall d :: d in all <==> d in SingleDesignators()
    ensures all[0x32] == all[0x30] && all[0x43] == all[0x35]
    ensures all[0x45] == all[0x36] && all[0x48] == all[0x37]
  {
    all := map[];
    all := all[0x30 := DecSpecialGraphics];  // 0
    all := all[0x32 := all[0x30]];           // 2, DEC alternate character ROM
    all := all[0x41 := British];             // A
    all := all[0x42 := UnitedStates];        // B
    all := all[0x34 := Dutch];               // 4
    all := all[0x35 := Finnish];             // 5
    all := all[0x43 := all[0x35]];           // C
    all := all[0x52 := French];              // R
    all := all[0x51 := FrenchCanadian];      // Q
    all := all[0x4B := German];              // K
    all := all[0x59 := Italian];             // Y
    all := all[0x36 := NorwegianDanish];     // 6
    all := all[0x45 := all[0x36]];           // E
    all := all[0x5A := Spanish];             // Z
    all := all[0x37 := Swedish];             // 7
    all := all[0x48 := all[0x37]];           // H
    all := all[0x3D := Swiss];               // =
    all := all[0x3E := DecTechnical];        // >
  }

  /** Builds the multi-byte registry, keyed by the packed designator bytes. */
  method InitMultiByte() returns (mb: map<Key, NationalSet>)
    ensures mb == MultiByte()
    ensures mb.Keys == {MultiByteKey(0x25, 0x36), MultiByteKey(0x25, 0x32)}
  {
    mb := map[];
    mb := mb[MultiByteKey(0x25, 0x36) := Portuguese];  // % 6
    mb := mb[MultiByteKey(0x25, 0x32) := Turkish];     // % 2
  }

  /**
   * The table a single-byte designation selects, and None for a byte that
   * designates nothing.
   */
  function LookupSingle(d: Byte): (r: Option<Table>)
    ensures r.Some? <==> d in SingleDesignators()
  {
    if d in All() then Some(Glyphs(All()[d])) else None
  }

  /**
   * The table a multi-byte designation selects, and None for a pair that
   * designates nothing.
   */
  function LookupMulti(prefix: Byte, code: Byte): (r: Option<Table>)
    ensures r.Some? <==> prefix == 0x25 && (code == 0x36 || code == 0x32)
  {
    MultiByteKeyInjective(prefix, code, 0x25, 0x36);
    MultiByteKeyInjective(prefix, code, 0x25, 0x32);
    var k := MultiByteKey(prefix, code);
    if k in MultiByte() then Some(Glyphs(MultiByte()[k])) else None
  }

  // ---------------------------------------------------------------------
  // Properties of the registries
  // ---------------------------------------------------------------------

  /** The single-byte registry's domain is exactly the eighteen designators. */
  lemma SingleRegistryDomain()
    ensures forall d :: d in All() <==> d in SingleDesignators()
  {
  }

  /** The multi-byte registry holds exactly the keys of "% 6" and "% 2", and they differ. */
  lemma MultiByteRegistryDomain()
    ensures MultiByteKey(0x25, 0x36) == 0x2536
    ensures MultiByteKey(0x25, 0x32) == 0x2532
    ensures MultiByteKey(0x25, 0x36) != MultiByteKey(0x25, 0x32)
    ensures MultiByte().Keys == {MultiByteKey(0x25, 0x36), MultiByteKey(0x25, 0x32)}
  {
  }

  /** "% 6" selects the Portuguese set and "% 2" the Turkish set. */
  lemma MultiByteDesignations()
    ensures LookupMulti(0x25, 0x36) == Some(Glyphs(Portuguese))
    ensures LookupMulti(0x25, 0x32) == Some(Glyphs(Turkish))
  {
  }

  /**
   * The single-byte registry reaches exactly the fourteen single-byte sets:
   * every set but Portuguese and Turkish has a designator there.
   */
  lemma SingleRegistryReach(s: NationalSet)
    ensures (exists d :: d in All() && All()[d] == s) <==> !(s == Portuguese || s == Turkish)
  {
    match s
    case DecSpecialGraphics => assert All()[0x30] == s;
    case British => assert All()[0x41] == s;
    case UnitedStates => assert All()[0x42] == s;
    case Dutch => assert All()[0x34] == s;
    case Finnish => assert All()[0x35] == s;
    case French => assert All()[0x52] == s;
    case FrenchCanadian => assert All()[0x51] == s;
    case German => assert All()[0x4B] == s;
    case Italian => assert All()[0x59] == s;
    case NorwegianDanish => assert All()[0x36] == s;
    case Spanish => assert All()[0x5A] == s;
    case Swedish => assert All()[0x37] == s;
    case Swiss => assert All()[0x3D] == s;
    case DecTechnical => assert All()[0x3E] == s;
    case Portuguese =>
    case Turkish =>
  }

  /** The multi-byte registry reaches exactly the Portuguese and Turkish sets. */
  lemma MultiByteRegistryReach(s: NationalSet)
    ensures (exists k :: k in MultiByte() && MultiByte()[k] == s) <==> s == Portuguese || s == Turkish
  {
    if s == Portuguese {
      assert MultiByte()[0x2536] == s;
    } else if s == Turkish {
      assert MultiByte()[0x2532] == s;
    }
  }

  /** Alias '2' selects a table equal, entry for entry, to that of '0'. */
  lemma DecSpecialGraphicsAlias()
    ensures LookupSingle(0x32).Some? && LookupSingle(0x32) == LookupSingle(0x30)
  {
  }

  /** Alias 'C' selects a table equal, entry for entry, to that of '5'. */
  lemma FinnishAlias()
    ensures LookupSingle(0x43).Some? && LookupSingle(0x43) == LookupSingle(0x35)
  {
  }

  /** Alias 'E' selects a table equal, entry for entry, to that of '6'. */
  lemma NorwegianDanishAlias()
    ensures LookupSingle(0x45).Some? && LookupSingle(0x45) == LookupSingle(0x36)
  {
  }

  /** Alias 'H' selects a table equal, entry for entry, to that of '7'. */
  lemma SwedishAlias()
    ensures LookupSingle(0x48).Some? && LookupSingle(0x48) == LookupSingle(0x37)
  {
  }

  /** The United States set is registered and overrides no byte. */
  lemma UsSetIsEmpty()
    ensures LookupSingle(0x42) == Some(map[])
  {
  }

  /** DEC Special Graphics shows 'q' as a horizontal line, U+2500. */
  lemma SpecialGraphicsHorizontalLine()
    ensures LookupSingle(0x30).Some? && LookupSingle(0x30).value[0x71] == '\U{2500}'
  {
  }

  /** The British set shows '#' as the pound sign, U+00A3. */
  lemma BritishPoundSign()
    ensures LookupSingle(0x41).Some? && LookupSingle(0x41).value[0x23] == '\U{00a3}'
  {
  }

  /** The Portuguese set shows '{' as a with tilde, U+00E3. */
  lemma PortugueseATilde()
    ensures LookupMulti(0x25, 0x36).Some? && LookupMulti(0x25, 0x36).value[0x7B] == '\U{00e3}'
  {
    MultiByteDesignations();
  }

  /** The Turkish set shows '@' as capital I with dot above, U+0130. */
  lemma TurkishDottedCapitalI()
    ensures LookupMulti(0x25, 0x32).Some? && LookupMulti(0x25, 0x32).value[0x40] == '\U{0130}'
  {
    MultiByteDesignations();
  }

  /** The null default designates no set. */
  lemma DefaultCharsetIsNull()
    ensures DefaultCharset().None?
  {
  }

  // ---------------------------------------------------------------------
  // Every key is printable
  // ---------------------------------------------------------------------

  /** A union of tables that override printable bytes only overrides printable bytes only. */
  lemma UnionPrintable(a: Table, b: Table)
    requires PrintableKeys(a) && PrintableKeys(b)
    ensures PrintableKeys(a + b)
  {
  }

  // Each table, one lemma apiece: it overrides printable bytes only.

  lemma DecTechnicalColumns2To5Printable()
    ensures PrintableKeys(DecTechnicalColumns2To5())
  {
  }

  lemma DecTechnicalColumns6To7Printable()
    ensures PrintableKeys(DecTechnicalColumns6To7())
  {
  }

  lemma DecSpecialGraphicsPrintable()
    ensures PrintableKeys(Glyphs(DecSpecialGraphics))
  {
  }

  lemma BritishPrintable()
    ensures PrintableKeys(Glyphs(British))
  {
  }

  lemma DutchPrintable()
    ensures PrintableKeys(Glyphs(Dutch))
  {
  }

  lemma FinnishPrintable()
    ensures PrintableKeys(Glyphs(Finnish))
  {
  }

  lemma FrenchPrintable()
    ensures PrintableKeys(Glyphs(French))
  {
  }

  lemma FrenchCanadianPrintable()
    ensures PrintableKeys(Glyphs(FrenchCanadian))
  {
  }

  lemma GermanPrintable()
    ensures PrintableKeys(Glyphs(German))
  {
  }

  lemma ItalianPrintable()
    ensures PrintableKeys(Glyphs(Italian))
  {
  }

  lemma NorwegianDanishPrintable()
    ensures PrintableKeys(Glyphs(NorwegianDanish))
  {
  }

  lemma SpanishPrintable()
    ensures PrintableKeys(Glyphs(Spanish))
  {
  }

  lemma SwedishPrintable()
    ensures PrintableKeys(Glyphs(Swedish))
  {
  }

  lemma SwissPrintable()
    ensures PrintableKeys(Glyphs(Swiss))
  {
  }

  lemma DecTechnicalPrintable()
    ensures PrintableKeys(Glyphs(DecTechnical))
  {
    DecTechnicalColumns2To5Printable();
    DecTechnicalColumns6To7Printable();
    UnionPrintable(DecTechnicalColumns2To5(), DecTechnicalColumns6To7());
  }

  lemma PortuguesePrintable()
    ensures PrintableKeys(Glyphs(Portuguese))
  {
  }

  lemma TurkishPrintable()
    ensures PrintableKeys(Glyphs(Turkish))
  {
  }

  /** Every character set overrides printable bytes only. */
  lemma GlyphsPrintable(s: NationalSet)
    ensures PrintableKeys(Glyphs(s))
  {
    match s
    case DecSpecialGraphics => DecSpecialGraphicsPrintable();
    case British => BritishPrintable();
    case UnitedStates =>
    case Dutch => DutchPrintable();
    case Finnish => FinnishPrintable();
    case French => FrenchPrintable();
    case FrenchCanadian => FrenchCanadianPrintable();
    case German => GermanPrintable();
    case Italian => ItalianPrintable();
    case NorwegianDanish => NorwegianDanishPrintable();
    case Spanish => SpanishPrintable();
    case Swedish => SwedishPrintable();
    case Swiss => SwissPrintable();
    case DecTechnical => DecTechnicalPrintable();
    case Portuguese => PortuguesePrintable();
    case Turkish => TurkishPrintable();
  }

  /** Every table a single-byte designation selects overrides printable bytes only. */
  lemma SingleTablesPrintable(d: Byte)
    ensures LookupSingle(d).Some? ==> PrintableKeys(LookupSingle(d).value)
  {
    if d in All() {
      GlyphsPrintable(All()[d]);
    }
  }

  /** Every table a multi-byte designation selects overrides printable bytes only. */
  lemma MultiTablesPrintable(prefix: Byte, code: Byte)
    ensures LookupMulti(prefix, code).Some? ==> PrintableKeys(LookupMulti(prefix, code).value)
  {
    PortuguesePrintable();
    TurkishPrintable();
  }

  // ---------------------------------------------------------------------
  // Applying a table
  // ---------------------------------------------------------------------

  /** A byte shown as itself. */
  function Glyph(b: Byte): char
  {
    b as int as char
  }

  /**
   * The glyph shown for byte b through a slot holding t: the table's entry
   * if it overrides b, otherwise b itself.
   */
  function Translate(t: Option<Table>, b: Byte): char
  {
    if t.Some? && b in t.value then t.value[b] else Glyph(b)
  }

  /** No registered set changes a control byte, space or DEL. */
  lemma NonPrintablePassesThrough(d: Byte, b: Byte)
    requires !Printable(b)
    ensures Translate(LookupSingle(d), b) == Glyph(b)
  {
    SingleTablesPrintable(d);
  }

  /** No registered multi-byte set changes a control byte, space or DEL. */
  lemma MultiNonPrintablePassesThrough(prefix: Byte, code: Byte, b: Byte)
    requires !Printable(b)
    ensures Translate(LookupMulti(prefix, code), b) == Glyph(b)
  {
    MultiTablesPrintable(prefix, code);
  }

  /** The null default and the United States set show every byte alike: as itself. */
  lemma DefaultAgreesWithUsSet(b: Byte)
    ensures Translate(DefaultCharset(), b) == Translate(LookupSingle(0x42), b) == Glyph(b)
  {
    UsSetIsEmpty();
  }

  // ---------------------------------------------------------------------
  // The tables
  // ---------------------------------------------------------------------

  /** DEC Special Character and Line Drawing Set (ESC ( 0, and ESC ( 2 by alias). */
  function DecSpecialGraphicsTable(): Table
  {
    map[
      0x60 := '\U{25c6}',  // `
      0x61 := '\U{2592}',  // a
      0x62 := '\U{2409}',  // b
      0x63 := '\U{240c}',  // c
      0x64 := '\U{240d}',  // d
      0x65 := '\U{240a}',  // e
      0x66 := '\U{00b0}',  // f
      0x67 := '\U{00b1}',  // g
      0x68 := '\U{2424}',  // h
      0x69 := '\U{240b}',  // i
      0x6A := '\U{2518}',  // j
      0x6B := '\U{2510}',  // k
      0x6C := '\U{250c}',  // l
      0x6D := '\U{2514}',  // m
      0x6E := '\U{253c}',  // n
      0x6F := '\U{23ba}',  // o
      0x70 := '\U{23bb}',  // p
      0x71 := '\U{2500}',  // q
      0x72 := '\U{23bc}',  // r
      0x73 := '\U{23bd}',  // s
      0x74 := '\U{251c}',  // t
      0x75 := '\U{2524}',  // u
      0x76 := '\U{2534}',  // v
      0x77 := '\U{252c}',  // w
      0x78 := '\U{2502}',  // x
      0x79 := '\U{2264}',  // y
      0x7A := '\U{2265}',  // z
      0x7B := '\U{03c0}',  // {
      0x7C := '\U{2260}',  // |
      0x7D := '\U{00a3}',  // }
      0x7E := '\U{00b7}'  // ~
    ]
  }

  /** United States set (ESC ( B): plain ASCII, so it replaces no byte. */
  function UnitedStatesTable(): Table
  {
    map[]
  }

  /** British national replacement set (ESC ( A). */
  function BritishTable(): Table
  {
    map[
      0x23 := '£'  // #
    ]
  }

  /** Dutch national replacement set (ESC ( 4). */
  function DutchTable(): Table
  {
    map[
      0x23 := '£',  // #
      0x40 := '¾',  // @
      0x5B := 'ĳ',  // [
      0x5C := '½',  // \
      0x5D := '|',  // ]
      0x7B := '¨',  // {
      0x7C := 'f',  // |
      0x7D := '¼',  // }
      0x7E := '´'  // ~
    ]
  }

  /** Finnish national replacement set (ESC ( 5, and ESC ( C by alias). */
  function FinnishTable(): Table
  {
    map[
      0x5B := 'Ä',  // [
      0x5C := 'Ö',  // \
      0x5D := 'Å',  // ]
      0x5E := 'Ü',  // ^
      0x60 := 'é',  // `
      0x7B := 'ä',  // {
      0x7C := 'ö',  // |
      0x7D := 'å',  // }
      0x7E := 'ü'  // ~
    ]
  }

  /** French national replacement set (ESC ( R). */
  function FrenchTable(): Table
  {
    map[
      0x23 := '£',  // #
      0x40 := 'à',  // @
      0x5B := '°',  // [
      0x5C := 'ç',  // \
      0x5D := '§',  // ]
      0x7B := 'é',  // {
      0x7C := 'ù',  // |
      0x7D := 'è',  // }
      0x7E := '¨'  // ~
    ]
  }

  /** French-Canadian national replacement set (ESC ( Q). */
  function FrenchCanadianTable(): Table
  {
    map[
      0x40 := 'à',  // @
      0x5B := 'â',  // [
      0x5C := 'ç',  // \
      0x5D := 'ê',  // ]
      0x5E := 'î',  // ^
      0x60 := 'ô',  // `
      0x7B := 'é',  // {
      0x7C := 'ù',  // |
      0x7D := 'è',  // }
      0x7E := 'û'  // ~
    ]
  }

  /** German national replacement set (ESC ( K). */
  function GermanTable(): Table
  {
    map[
      0x40 := '§',  // @
      0x5B := 'Ä',  // [
      0x5C := 'Ö',  // \
      0x5D := 'Ü',  // ]
      0x7B := 'ä',  // {
      0x7C := 'ö',  // |
      0x7D := 'ü',  // }
      0x7E := 'ß'  // ~
    ]
  }

  /** Italian national replacement set (ESC ( Y). */
  function ItalianTable(): Table
  {
    map[
      0x23 := '£',  // #
      0x40 := '§',  // @
      0x5B := '°',  // [
      0x5C := 'ç',  // \
      0x5D := 'é',  // ]
      0x60 := 'ù',  // `
      0x7B := 'à',  // {
      0x7C := 'ò',  // |
      0x7D := 'è',  // }
      0x7E := 'ì'  // ~
    ]
  }

  /** Norwegian/Danish national replacement set (ESC ( 6, and ESC ( E by alias). */
  function NorwegianDanishTable(): Table
  {
    map[
      0x40 := 'Ä',  // @
      0x5B := 'Æ',  // [
      0x5C := 'Ø',  // \
      0x5D := 'Å',  // ]
      0x5E := 'Ü',  // ^
      0x60 := 'ä',  // `
      0x7B := 'æ',  // {
      0x7C := 'ø',  // |
      0x7D := 'å',  // }
      0x7E := 'ü'  // ~
    ]
  }

  /** Spanish national replacement set (ESC ( Z). */
  function SpanishTable(): Table
  {
    map[
      0x23 := '£',  // #
      0x40 := '§',  // @
      0x5B := '¡',  // [
      0x5C := 'Ñ',  // \
      0x5D := '¿',  // ]
      0x7B := '°',  // {
      0x7C := 'ñ',  // |
      0x7D := 'ç'  // }
    ]
  }

  /** Swedish national replacement set (ESC ( 7, and ESC ( H by alias). */
  function SwedishTable(): Table
  {
    map[
      0x40 := 'É',  // @
      0x5B := 'Ä',  // [
      0x5C := 'Ö',  // \
      0x5D := 'Å',  // ]
      0x5E := 'Ü',  // ^
      0x60 := 'é',  // `
      0x7B := 'ä',  // {
      0x7C := 'ö',  // |
      0x7D := 'å',  // }
      0x7E := 'ü'  // ~
    ]
  }

  /** Swiss national replacement set (ESC ( =). */
  function SwissTable(): Table
  {
    map[
      0x23 := 'ù',  // #
      0x40 := 'à',  // @
      0x5B := 'é',  // [
      0x5C := 'ç',  // \
      0x5D := 'ê',  // ]
      0x5E := 'î',  // ^
      0x5F := 'è',  // _
      0x60 := 'ô',  // `
      0x7B := 'ä',  // {
      0x7C := 'ö',  // |
      0x7D := 'ü',  // }
      0x7E := 'û'  // ~
    ]
  }

  /**
   * DEC Technical character set (ESC ( >), written as the union of its two
   * halves: code-table columns 2 to 5 and columns 6 and 7.
   */
  function DecTechnicalTable(): Table
  {
    DecTechnicalColumns2To5() + DecTechnicalColumns6To7()
  }

  /** DEC Technical, source bytes 0x21 to 0x5F. */
  function DecTechnicalColumns2To5(): Table
  {
    map[
      0x21 := '\U{23b7}',  // !
      0x22 := '\U{250c}',  // "
      0x23 := '\U{2500}',  // #
      0x24 := '\U{2320}',  // $
      0x25 := '\U{2321}',  // %
      0x26 := '\U{2502}',  // &
      0x27 := '\U{23a1}',  // '
      0x28 := '\U{23a3}',  // (
      0x29 := '\U{23a4}',  // )
      0x2A := '\U{23a6}',  // *
      0x2B := '\U{23a7}',  // +
      0x2C := '\U{23a9}',  // ,
      0x2D := '\U{23ab}',  // -
      0x2E := '\U{23ad}',  // .
      0x2F := '\U{23a8}',  // /
      0x30 := '\U{23ac}',  // 0
      0x3F := '\U{2260}',  // ?
      0x4F := '\U{2261}',  // O
      0x50 := '\U{2264}',  // P
      0x51 := '\U{2265}',  // Q
      0x52 := '\U{222b}',  // R
      0x53 := '\U{2234}',  // S
      0x54 := '\U{221d}',  // T
      0x55 := '\U{221e}',  // U
      0x56 := '\U{00f7}',  // V
      0x57 := '\U{0394}',  // W
      0x58 := '\U{2207}',  // X
      0x59 := '\U{03a6}',  // Y
      0x5A := '\U{0393}',  // Z
      0x5B := '\U{223c}',  // [
      0x5C := '\U{2243}',  // \
      0x5D := '\U{0398}',  // ]
      0x5E := '\U{00d7}',  // ^
      0x5F := '\U{039b}'  // _
    ]
  }

  /** DEC Technical, source bytes 0x60 to 0x7E. */
  function DecTechnicalColumns6To7(): Table
  {
    map[
      0x60 := '\U{21d4}',  // `
      0x61 := '\U{21d2}',  // a
      0x62 := '\U{2228}',  // b
      0x63 := '\U{2227}',  // c
      0x64 := '\U{2203}',  // d
      0x65 := '\U{2200}',  // e
      0x66 := '\U{2135}',  // f
      0x67 := '\U{039e}',  // g
      0x68 := '\U{03a8}',  // h
      0x69 := '\U{03a9}',  // i
      0x6A := '\U{03a0}',  // j
      0x6B := '\U{03a3}',  // k
      0x6E := '\U{2282}',  // n
      0x6F := '\U{2283}',  // o
      0x70 := '\U{2229}',  // p
      0x71 := '\U{222a}',  // q
      0x72 := '\U{2227}',  // r
      0x73 := '\U{2228}',  // s
      0x74 := '\U{00ac}',  // t
      0x75 := '\U{03b1}',  // u
      0x76 := '\U{03b2}',  // v
      0x77 := '\U{03c7}',  // w
      0x78 := '\U{03b4}',  // x
      0x79 := '\U{03b5}',  // y
      0x7A := '\U{03c6}',  // z
      0x7B := '\U{03b3}',  // {
      0x7C := '\U{03b7}',  // |
      0x7D := '\U{03b9}',  // }
      0x7E := '\U{03c3}'  // ~
    ]
  }

  /** Portuguese national replacement set (ESC ( % 6). */
  function PortugueseTable(): Table
  {
    map[
      0x5B := 'Ã',  // [
      0x5C := 'Ç',  // \
      0x5D := 'Õ',  // ]
      0x7B := 'ã',  // {
      0x7C := 'ç',  // |
      0x7D := 'õ'  // }
    ]
  }

  /** Turkish national replacement set (ESC ( % 2). */
  function TurkishTable(): Table
  {
    map[
      0x26 := '\U{011f}',  // &
      0x40 := '\U{0130}',  // @
      0x5B := '\U{015e}',  // [
      0x5C := '\U{00d6}',  // \
      0x5D := '\U{00c7}',  // ]
      0x5E := '\U{00dc}',  // ^
      0x60 := '\U{011e}',  // `
      0x7B := '\U{015f}',  // {
      0x7C := '\U{00f6}',  // |
      0x7D := '\U{00e7}',  // }
      0x7E := '\U{00fc}'  // ~
    ]
  }
}
