/**
 CPE normalisation (core/sbom.py): a CPE 2.3 formatted string (section 6.2 of NISTIR 7695) or a 2.2 URI (section 6.1)
 becomes the product-level prefix that CVE sync uses. Strings are ASCII; percent-decoding (`unquote`) is a parameter,
 so what is proved here holds for any decoder.
 */
module Cpe {
  import opened Wrappers

  const BACKSLASH := '\\'

  predicate IsSpace(c: char) {
    c == ' ' || '\t' <= c <= '\r' || (28 as char) <= c <= (31 as char)
  }

  function StripLeft(s: string): string {
    if s != "" && IsSpace(s[0]) then StripLeft(s[1..]) else s
  }

  function StripRight(s: string): string {
    if s != "" && IsSpace(s[|s| - 1]) then StripRight(s[..|s| - 1]) else s
  }

  function Strip(s: string): string {
    StripRight(StripLeft(s))
  }

  function LowerChar(c: char): char {
    if 'A' <= c <= 'Z' then (c as int + 32) as char else c
  }

  function Lower(s: string): (r: string)
    ensures |r| == |s| && forall i :: 0 <= i < |s| ==> r[i] == LowerChar(s[i])
  {
    if s == "" then "" else [LowerChar(s[0])] + Lower(s[1..])
  }

  predicate EndsIn(s: string, c: char) {
    s != "" && s[|s| - 1] == c
  }

  predicate EndsInSpace(s: string) {
    s != "" && IsSpace(s[|s| - 1])
  }

  predicate StartsWith(s: string, prefix: string) {
    prefix <= s
  }

  /** Split at the colons that no backslash precedes; `field` is what has been read of the current field. */
  function SplitUnescaped(field: string, s: string): (fields: seq<string>)
    ensures fields != []
    decreases |s|
  {
    if s == "" then [field]
    else if s[0] == ':' && !EndsIn(field, BACKSLASH) then [field] + SplitUnescaped("", s[1..])
    else SplitUnescaped(field + [s[0]], s[1..])
  }

  function SplitColons(field: string, s: string): (fields: seq<string>)
    ensures fields != []
    decreases |s|
  {
    if s == "" then [field]
    else if s[0] == ':' then [field] + SplitColons("", s[1..])
    else SplitColons(field + [s[0]], s[1..])
  }

  predicate NeedsEscape(c: char) {
    !('A' <= c <= 'Z' || 'a' <= c <= 'z' || '0' <= c <= '9' || c == '.' || c == '_' || c == '-')
  }

  function Escape(s: string): string {
    if s == "" then ""
    else (if NeedsEscape(s[0]) then [BACKSLASH, s[0]] else [s[0]]) + Escape(s[1..])
  }

  datatype Fields = Fields(part: string, vendor: string, product: string)

  predicate IsAny(s: string) {
    s == "" || s == "*" || s == "-"
  }

  /** The three product-level fields as the input spells them, before they are checked and lower-cased. */
  function RawFields(cpe: string, unquote: string -> string): Option<Fields> {
    if StartsWith(Lower(cpe), "cpe:2.3:") then
      var fields := SplitUnescaped("", cpe);
      if |fields| < 5 then None else Some(Fields(fields[2], fields[3], fields[4]))
    else if StartsWith(Lower(cpe), "cpe:/") then
      var fields := SplitColons("", cpe[5..]);
      if |fields| < 3 then None
      else Some(Fields(fields[0], Escape(unquote(fields[1])), Escape(unquote(fields[2]))))
    else
      None
  }

  function CpeFields(cpe: string, unquote: string -> string): Option<Fields> {
    match RawFields(Strip(cpe), unquote)
    case None => None
    case Some(raw) =>
      if Lower(raw.part) !in ["a", "o", "h"] || IsAny(raw.vendor) || IsAny(raw.product) then None
      else Some(Fields(Lower(raw.part), Lower(raw.vendor), Lower(raw.product)))
  }

  /** Two texts with a colon between them. */
  function Sep(field: string, rest: string): string {
    field + ":" + rest
  }

  function Print(f: Fields): string {
    Sep("cpe", Sep("2.3", Sep(f.part, Sep(f.vendor, f.product))))
  }

  /** The parsed fields, printed again without whatever followed the product. */
  function CpePrefix(cpe: string, unquote: string -> string): Option<string> {
    match CpeFields(cpe, unquote)
    case None => None
    case Some(f) => Some(Print(f))
  }

  // ---------------------------------------------------------------------------
  // Splitting inverts printing
  // ---------------------------------------------------------------------------

  /** No colon of `s` would be split at, whatever stands before `s` as long as it is not a backslash. */
  predicate Whole(s: string) {
    forall i :: 0 <= i < |s| && s[i] == ':' ==> i > 0 && s[i - 1] == BACKSLASH
  }

  lemma WholeStep(field: string, f: string)
    requires f != "" && Whole(field + f)
    ensures f[0] == ':' ==> EndsIn(field, BACKSLASH)
    ensures (field + [f[0]]) + f[1..] == field + f
  {
    assert (field + f)[|field|] == f[0];
    if f[0] == ':' {
      assert (field + f)[|field| - 1] == BACKSLASH;
    }
  }

  /** A whole field that does not end in a backslash is read back, and reading goes on after the colon. */
  lemma {:induction false} SplitReadsField(field: string, f: string, rest: string)
    requires Whole(field + f) && !EndsIn(field + f, BACKSLASH)
    ensures SplitUnescaped(field, Sep(f, rest)) == [field + f] + SplitUnescaped("", rest)
    decreases |f|
  {
    var s := Sep(f, rest);
    if f == "" {
      assert s[0] == ':' && s[1..] == rest && field + f == field;
    } else {
      WholeStep(field, f);
      assert s[0] == f[0] && s[1..] == Sep(f[1..], rest);
      SplitReadsField(field + [f[0]], f[1..], rest);
    }
  }

  lemma {:induction false} SplitReadsLast(field: string, f: string)
    requires Whole(field + f)
    ensures SplitUnescaped(field, f) == [field + f]
    decreases |f|
  {
    if f == "" {
      assert field + f == field;
    } else {
      WholeStep(field, f);
      SplitReadsLast(field + [f[0]], f[1..]);
    }
  }

  lemma SplitFirst(f: string, rest: string)
    requires Whole(f) && !EndsIn(f, BACKSLASH)
    ensures SplitUnescaped("", Sep(f, rest)) == [f] + SplitUnescaped("", rest)
  {
    assert "" + f == f;
    SplitReadsField("", f, rest);
  }

  lemma SplitOnly(f: string)
    requires Whole(f)
    ensures SplitUnescaped("", f) == [f]
  {
    assert "" + f == f;
    SplitReadsLast("", f);
  }

  /** Whole fields, of which only the last may end in a backslash. */
  predicate WellSplit(fields: seq<string>) {
    && (forall k :: 0 <= k < |fields| ==> Whole(fields[k]))
    && (forall k :: 0 <= k < |fields| - 1 ==> !EndsIn(fields[k], BACKSLASH))
  }

  lemma {:induction false} SplitYieldsWhole(field: string, s: string)
    requires Whole(field)
    ensures WellSplit(SplitUnescaped(field, s))
    decreases |s|
  {
    if s == "" {
    } else if s[0] == ':' && !EndsIn(field, BACKSLASH) {
      SplitYieldsWhole("", s[1..]);
      WellSplitCons(field, SplitUnescaped("", s[1..]));
    } else {
      SplitYieldsWhole(field + [s[0]], s[1..]);
    }
  }

  lemma WellSplitCons(field: string, rest: seq<string>)
    requires Whole(field) && !EndsIn(field, BACKSLASH) && WellSplit(rest)
    ensures WellSplit([field] + rest)
  {
  }

  function Join(fields: seq<string>): string
    requires fields != []
  {
    if |fields| == 1 then fields[0] else Sep(fields[0], Join(fields[1..]))
  }

  /** Splitting loses nothing: the fields joined again are the input. */
  lemma {:induction false} JoinInvertsSplit(field: string, s: string)
    ensures Join(SplitUnescaped(field, s)) == field + s
    decreases |s|
  {
    if s == "" {
      assert field + s == field;
    } else if s[0] == ':' && !EndsIn(field, BACKSLASH) {
      JoinInvertsSplit("", s[1..]);
      var rest := SplitUnescaped("", s[1..]);
      assert ([field] + rest)[1..] == rest;
      assert "" + s[1..] == s[1..] && Sep(field, s[1..]) == field + s;
    } else {
      JoinInvertsSplit(field + [s[0]], s[1..]);
      assert field + s == (field + [s[0]]) + s[1..];
    }
  }

  lemma {:induction false} EscapeIsWhole(s: string)
    ensures Whole(Escape(s))
  {
    if s != "" {
      EscapeIsWhole(s[1..]);
      assert NeedsEscape(':');
    }
  }

  lemma LowerKeepsShape(s: string)
    ensures Whole(s) ==> Whole(Lower(s))
    ensures EndsIn(Lower(s), BACKSLASH) <==> EndsIn(s, BACKSLASH)
    ensures IsAny(Lower(s)) <==> IsAny(s)
    ensures Lower(Lower(s)) == Lower(s)
  {
    assert forall c: char :: LowerChar(c) == BACKSLASH <==> c == BACKSLASH;
    assert forall c: char :: LowerChar(c) == ':' <==> c == ':';
    assert Lower(s) == "*" <==> s == "*";
    assert Lower(s) == "-" <==> s == "-";
  }

  /** What the parser returns: a known part, and whole lower-case fields that name something. */
  lemma ParsedFields(cpe: string, unquote: string -> string)
    ensures var parsed := CpeFields(cpe, unquote);
            parsed.Some? ==>
              var f := parsed.value;
              && f.part in ["a", "o", "h"]
              && Whole(f.vendor) && Whole(f.product) && !IsAny(f.vendor) && !IsAny(f.product)
              && Lower(f.vendor) == f.vendor && Lower(f.product) == f.product
              && (StartsWith(Lower(Strip(cpe)), "cpe:2.3:") ==> !EndsIn(f.vendor, BACKSLASH))
  {
    var s := Strip(cpe);
    if CpeFields(cpe, unquote).Some? {
      var raw := RawFields(s, unquote).value;
      LowerKeepsShape(raw.vendor);
      LowerKeepsShape(raw.product);
      if StartsWith(Lower(s), "cpe:2.3:") {
        SplitYieldsWhole("", s);
      } else {
        var fields := SplitColons("", s[5..]);
        EscapeIsWhole(unquote(fields[1]));
        EscapeIsWhole(unquote(fields[2]));
      }
    }
  }

  // ---------------------------------------------------------------------------
  // The normal form
  // ---------------------------------------------------------------------------

  predicate Printable(f: Fields) {
    && f.part in ["a", "o", "h"]
    && Whole(f.vendor) && Whole(f.product) && !IsAny(f.vendor) && !IsAny(f.product)
    && Lower(f.vendor) == f.vendor && Lower(f.product) == f.product
  }

  lemma SplitHead(rest: string)
    ensures SplitUnescaped("", Sep("cpe", Sep("2.3", rest))) == ["cpe", "2.3"] + SplitUnescaped("", rest)
    ensures StartsWith(Lower(Sep("cpe", Sep("2.3", rest))), "cpe:2.3:")
  {
    SplitFirst("cpe", Sep("2.3", rest));
    SplitFirst("2.3", rest);
    SepIs("2.3", rest);
    SepIs("cpe", Sep("2.3", rest));
    assert Lower("cpe") == "cpe";
    HeadOfFormatted("cpe", rest);
  }

  function Tail(f: Fields): string {
    Sep(f.part, Sep(f.vendor, f.product))
  }

  /** Reading part, vendor and product back: a vendor ending in a backslash swallows the product. */
  lemma SplitTail(f: Fields)
    requires f.part in ["a", "o", "h"] && Whole(f.vendor) && Whole(f.product)
    ensures SplitUnescaped("", Tail(f))
         == if EndsIn(f.vendor, BACKSLASH) then [f.part, Sep(f.vendor, f.product)] else [f.part, f.vendor, f.product]
  {
    SplitFirst(f.part, Sep(f.vendor, f.product));
    if EndsIn(f.vendor, BACKSLASH) {
      var s := Sep(f.vendor, f.product);
      assert forall i :: |f.vendor| < i < |s| ==> s[i] == f.product[i - |f.vendor| - 1];
      assert forall i :: 0 <= i < |f.vendor| ==> s[i] == f.vendor[i];
      SplitOnly(s);
    } else {
      SplitFirst(f.vendor, f.product);
      SplitOnly(f.product);
    }
  }

  /** Trailing white space goes, and nothing else. */
  lemma {:induction false} StripRightShortens(s: string)
    ensures StripRight(s) <= s
    ensures StripRight(s) == s <==> !EndsInSpace(s)
  {
    if EndsInSpace(s) {
      StripRightShortens(s[..|s| - 1]);
    }
  }

  lemma {:induction false} StripSep(field: string, rest: string)
    ensures StripRight(Sep(field, rest)) == Sep(field, StripRight(rest))
    decreases |rest|
  {
    var s := Sep(field, rest);
    if EndsInSpace(rest) {
      assert s[..|s| - 1] == Sep(field, rest[..|rest| - 1]) && s[|s| - 1] == rest[|rest| - 1];
      StripSep(field, rest[..|rest| - 1]);
    }
  }

  /** Stripping a printed prefix only touches the product. */
  lemma StripPrinted(f: Fields)
    ensures Strip(Print(f)) == Print(f.(product := StripRight(f.product)))
  {
    assert Print(f)[0] == 'c';
    StripSep("cpe", Sep("2.3", Tail(f)));
    StripSep("2.3", Tail(f));
    StripSep(f.part, Sep(f.vendor, f.product));
    StripSep(f.vendor, f.product);
  }

  /** What the parser makes of a printed prefix without trailing space. */
  lemma RawOfPrinted(f: Fields, unquote: string -> string)
    requires f.part in ["a", "o", "h"] && Whole(f.vendor) && Whole(f.product)
    ensures RawFields(Print(f), unquote) == if EndsIn(f.vendor, BACKSLASH) then None else Some(f)
  {
    SplitHead(Tail(f));
    SplitTail(f);
  }

  lemma PrintLength(f: Fields)
    ensures |Print(f)| == |f.part| + |f.vendor| + |f.product| + 10
  {
  }

  lemma {:induction false} TrimmedIsLower(s: string)
    requires Lower(s) == s
    ensures Lower(StripRight(s)) == StripRight(s)
  {
    StripRightShortens(s);
    var r := StripRight(s);
    assert forall i :: 0 <= i < |r| ==> LowerChar(r[i]) == Lower(s)[i] == s[i] == r[i];
  }

  /** Normalising a printed prefix again: white space at the end of the product goes, and the rest is read back. */
  lemma PrintedAgain(f: Fields, unquote: string -> string)
    requires Printable(f)
    ensures CpePrefix(Print(f), unquote)
         == if EndsIn(f.vendor, BACKSLASH) || IsAny(StripRight(f.product)) then None
            else Some(Print(f.(product := StripRight(f.product))))
  {
    var g := f.(product := StripRight(f.product));
    StripRightShortens(f.product);
    TrimmedIsLower(f.product);
    StripPrinted(f);
    RawOfPrinted(g, unquote);
    assert Lower(g.part) == g.part;
  }

  /** Parsing what was printed gives the fields back exactly when the vendor has no trailing backslash and the product
      no trailing space. */
  lemma PrintedParsesBackIff(f: Fields, unquote: string -> string)
    requires Printable(f)
    ensures CpePrefix(Print(f), unquote) == Some(Print(f))
       <==> (!EndsIn(f.vendor, BACKSLASH) && !EndsInSpace(f.product))
    ensures !EndsIn(f.vendor, BACKSLASH) && !EndsInSpace(f.product) ==> CpeFields(Print(f), unquote) == Some(f)
  {
    var g := f.(product := StripRight(f.product));
    StripRightShortens(f.product);
    StripPrinted(f);
    RawOfPrinted(g, unquote);
    assert Lower(f.part) == f.part;
    if CpeFields(Print(f), unquote).Some? {
      PrintLength(CpeFields(Print(f), unquote).value);
      PrintLength(f);
    }
  }

  /**
   Normalising is a projection. For every input it accepts, normalising the result again gives the same result exactly
   when the parsed vendor does not end in a backslash and the parsed product does not end in white space; the first
   can only happen for a 2.2 URI.
   */
  lemma NormalFormIff(cpe: string, unquote: string -> string, again: string -> string)
    requires CpeFields(cpe, unquote).Some?
    ensures var f := CpeFields(cpe, unquote).value;
            && CpePrefix(cpe, unquote) == Some(Print(f))
            && (CpePrefix(Print(f), again) == Some(Print(f))
                <==> (!EndsIn(f.vendor, BACKSLASH) && !EndsInSpace(f.product)))
            && (StartsWith(Lower(Strip(cpe)), "cpe:2.3:") ==> !EndsIn(f.vendor, BACKSLASH))
  {
    ParsedFields(cpe, unquote);
    PrintedParsesBackIff(CpeFields(cpe, unquote).value, again);
  }

  /** A prefix that names a product whose name still ends in white space: normalised again, it is another prefix. */
  predicate Wobbly(f: Fields) {
    !EndsIn(f.vendor, BACKSLASH) && EndsInSpace(f.product) && !IsAny(StripRight(f.product))
  }

  lemma WobblyIff(f: Fields, unquote: string -> string)
    requires Printable(f)
    ensures Wobbly(f) <==> CpePrefix(Print(f), unquote) !in [None, Some(Print(f))]
  {
    PrintedAgain(f, unquote);
    StripRightShortens(f.product);
    PrintLength(f);
    PrintLength(f.(product := StripRight(f.product)));
  }

  /** A 2.3 string with a version or more after the product. */
  function WithMore(f: Fields, more: string): string {
    Sep("cpe", Sep("2.3", Sep(f.part, Sep(f.vendor, Sep(f.product, more)))))
  }

  lemma SplitMore(f: Fields, more: string)
    requires f.part in ["a", "o", "h"] && Whole(f.vendor) && Whole(f.product)
    requires !EndsIn(f.vendor, BACKSLASH) && !EndsIn(f.product, BACKSLASH)
    ensures SplitUnescaped("", WithMore(f, more))
         == ["cpe", "2.3", f.part, f.vendor, f.product] + SplitUnescaped("", more)
    ensures StartsWith(Lower(WithMore(f, more)), "cpe:2.3:")
  {
    SplitHead(Sep(f.part, Sep(f.vendor, Sep(f.product, more))));
    SplitFirst(f.part, Sep(f.vendor, Sep(f.product, more)));
    SplitFirst(f.vendor, Sep(f.product, more));
    SplitFirst(f.product, more);
  }

  lemma StripMore(f: Fields, more: string)
    requires more != "" && !EndsInSpace(more)
    ensures Strip(WithMore(f, more)) == WithMore(f, more)
  {
    var cpe := WithMore(f, more);
    assert cpe[0] == 'c' && cpe[|cpe| - 1] == more[|more| - 1];
  }

  lemma RawOfMore(f: Fields, more: string, unquote: string -> string)
    requires f.part in ["a", "o", "h"] && Whole(f.vendor) && Whole(f.product)
    requires !EndsIn(f.vendor, BACKSLASH) && !EndsIn(f.product, BACKSLASH)
    ensures RawFields(WithMore(f, more), unquote) == Some(f)
  {
    SplitMore(f, more);
  }

  /** Every such product comes up: it is what the 2.3 string parses to, white space before the next colon included. */
  lemma MoreParses(f: Fields, more: string, unquote: string -> string)
    requires Printable(f) && !EndsIn(f.vendor, BACKSLASH) && !EndsIn(f.product, BACKSLASH)
    requires more != "" && !EndsInSpace(more)
    ensures CpeFields(WithMore(f, more), unquote) == Some(f)
  {
    StripMore(f, more);
    RawOfMore(f, more, unquote);
    assert Lower(f.part) == f.part;
  }

  const SPACED := Fields("a", "v", "p ")

  const RAW := "cpe:2.3:a:v:p :1"

  lemma SpacedIsWobbly()
    ensures Printable(SPACED) && Wobbly(SPACED)
    ensures !EndsIn(SPACED.product, BACKSLASH) && StripRight(SPACED.product) == "p"
  {
    assert SPACED.product[..1] == "p" && StripRight("p") == "p";
    assert Lower("p ") == "p " && Lower("v") == "v";
  }

  lemma SpacedTexts()
    ensures WithMore(SPACED, "1") == RAW && Print(SPACED) == "cpe:2.3:a:v:p "
    ensures Print(SPACED.(product := "p")) == "cpe:2.3:a:v:p"
  {
  }

  /** For instance: normalised once and twice, RAW gives two different prefixes. */
  lemma SpaceIsLost(unquote: string -> string)
    ensures CpeFields(RAW, unquote) == Some(SPACED) && Wobbly(SPACED)
    ensures CpePrefix(RAW, unquote) == Some("cpe:2.3:a:v:p ")
    ensures CpePrefix("cpe:2.3:a:v:p ", unquote) == Some("cpe:2.3:a:v:p")
  {
    SpacedIsWobbly();
    SpacedTexts();
    MoreParses(SPACED, "1", unquote);
    PrintedAgain(SPACED, unquote);
  }

  /** Two products have the same prefix only if part, vendor and product agree. */
  lemma PrintIsInjective(f: Fields, g: Fields)
    requires Printable(f) && Printable(g) && !EndsIn(f.vendor, BACKSLASH) && !EndsIn(g.vendor, BACKSLASH)
    requires Print(f) == Print(g)
    ensures f == g
  {
    SplitHead(Tail(f));
    SplitHead(Tail(g));
    SplitTail(f);
    SplitTail(g);
    assert SplitUnescaped("", Print(f)) == ["cpe", "2.3", f.part, f.vendor, f.product];
    assert SplitUnescaped("", Print(g)) == ["cpe", "2.3", g.part, g.vendor, g.product];
  }

  predicate NoColon(s: string) {
    ':' !in s
  }

  lemma {:induction false} ColonsReadField(field: string, f: string, rest: string)
    requires NoColon(f)
    ensures SplitColons(field, Sep(f, rest)) == [field + f] + SplitColons("", rest)
    ensures SplitColons(field, f) == [field + f]
    decreases |f|
  {
    var s := Sep(f, rest);
    if f == "" {
      assert s[0] == ':' && s[1..] == rest && field + f == field;
    } else {
      assert s[0] == f[0] && s[1..] == Sep(f[1..], rest) && field + f == (field + [f[0]]) + f[1..];
      ColonsReadField(field + [f[0]], f[1..], rest);
    }
  }

  /** A 2.2 URI: the first two colons after the part separate vendor and product, and decoding comes after splitting. */
  lemma UriParses(part: string, vendor: string, product: string, unquote: string -> string)
    requires NoColon(part) && NoColon(vendor) && NoColon(product)
    ensures RawFields("cpe:/" + Sep(part, Sep(vendor, product)), unquote)
         == Some(Fields(part, Escape(unquote(vendor)), Escape(unquote(product))))
  {
    var rest := Sep(part, Sep(vendor, product));
    var s := "cpe:/" + rest;
    assert s[5..] == rest && s[4] == '/';
    assert Lower(s)[..5] == "cpe:/" by {
      assert s[..5] == "cpe:/";
      assert forall i :: 0 <= i < 5 ==> s[..5][i] == s[i];
    }
    assert Lower(s)[4] == '/' && "cpe:2.3:"[4] == '2';
    assert "" + part == part && "" + vendor == vendor && "" + product == product;
    ColonsReadField("", part, Sep(vendor, product));
    ColonsReadField("", vendor, product);
    ColonsReadField("", product, "");
  }

  // ---------------------------------------------------------------------------
  // Which inputs parse, and to what
  // ---------------------------------------------------------------------------

  /** Lower-casing changes the capitals, one by one, and no other character. */
  lemma LowerTells(s: string)
    ensures |Lower(s)| == |s|
    ensures forall i :: 0 <= i < |s| ==>
      Lower(s)[i] == if 'A' <= s[i] <= 'Z' then ('a' as int + (s[i] as int - 'A' as int)) as char else s[i]
  {
  }

  /** A blank, a tab, one of the four line and page ends, or one of the four separators. */
  predicate IsBlank(c: char) {
    c as int in {9, 10, 11, 12, 13, 28, 29, 30, 31, 32}
  }

  predicate IsBlanks(s: string) {
    forall i :: 0 <= i < |s| ==> IsBlank(s[i])
  }

  predicate IsTrimmed(s: string) {
    s != "" && !IsBlank(s[0]) && !IsBlank(s[|s| - 1])
  }

  lemma {:induction false} StripLeftTells(a: string, s: string)
    requires IsBlanks(a) && (s == "" || !IsBlank(s[0]))
    ensures StripLeft(a + s) == s
  {
    if a == "" {
      assert a + s == s;
    } else {
      assert (a + s)[0] == a[0] && (a + s)[1..] == a[1..] + s;
      StripLeftTells(a[1..], s);
    }
  }

  lemma {:induction false} StripRightTells(s: string, b: string)
    requires IsBlanks(b) && (s == "" || !IsBlank(s[|s| - 1]))
    ensures StripRight(s + b) == s
  {
    if b == "" {
      assert s + b == s;
    } else {
      assert (s + b)[|s + b| - 1] == b[|b| - 1] && (s + b)[..|s + b| - 1] == s + b[..|b| - 1];
      StripRightTells(s, b[..|b| - 1]);
    }
  }

  /** Stripping takes the white space off both ends and nothing else. */
  lemma StripTells(a: string, s: string, b: string)
    requires IsBlanks(a) && IsBlanks(b) && IsTrimmed(s)
    ensures Strip(a + s + b) == s
  {
    assert a + s + b == a + (s + b);
    assert (s + b)[0] == s[0];
    StripLeftTells(a, s + b);
    StripRightTells(s, b);
  }

  /** The other direction of `JoinInvertsSplit`: whole fields, joined and split, are read back. */
  lemma {:induction false} SplitInvertsJoin(fields: seq<string>)
    requires fields != [] && WellSplit(fields)
    ensures SplitUnescaped("", Join(fields)) == fields
  {
    if |fields| == 1 {
      SplitOnly(fields[0]);
    } else {
      SplitFirst(fields[0], Join(fields[1..]));
      SplitInvertsJoin(fields[1..]);
    }
  }

  lemma LowerOfTwo(s: string, t: string)
    ensures Lower(s + t) == Lower(s) + Lower(t)
  {
  }

  lemma JoinHead(fields: seq<string>)
    requires |fields| >= 3
    ensures Join(fields) == fields[0] + (":" + (fields[1] + (":" + Join(fields[2..]))))
  {
    var rest := fields[1..];
    assert rest[0] == fields[1] && rest[1..] == fields[2..];
    SepIs(rest[0], Join(rest[1..]));
    SepIs(fields[0], Join(rest));
  }

  lemma SepIs(field: string, rest: string)
    ensures Sep(field, rest) == field + (":" + rest)
  {
  }

  lemma HeadOfFormatted(head: string, rest: string)
    requires Lower(head) == "cpe"
    ensures StartsWith(Lower(head + (":" + ("2.3" + (":" + rest)))), "cpe:2.3:")
  {
    var t := Lower(head + (":" + ("2.3" + (":" + rest))));
    assert t[0] == Lower(head)[0] && t[1] == Lower(head)[1] && t[2] == Lower(head)[2];
    assert t[3] == ':' && t[4] == '2' && t[5] == '.' && t[6] == '3' && t[7] == ':';
    assert t[..8] == "cpe:2.3:";
  }

  lemma RawOfFormatted(fields: seq<string>, unquote: string -> string)
    requires |fields| >= 3 && WellSplit(fields) && Lower(fields[0]) == "cpe" && fields[1] == "2.3"
    ensures RawFields(Join(fields), unquote)
         == if |fields| < 5 then None else Some(Fields(fields[2], fields[3], fields[4]))
  {
    JoinHead(fields);
    HeadOfFormatted(fields[0], Join(fields[2..]));
    SplitInvertsJoin(fields);
  }

  lemma FieldsOfRaw(cpe: string, raw: Fields, unquote: string -> string)
    requires RawFields(Strip(cpe), unquote) == Some(raw)
    ensures CpeFields(cpe, unquote)
         == if Lower(raw.part) in {"a", "o", "h"} && raw.vendor !in {"", "*", "-"} && raw.product !in {"", "*", "-"}
            then Some(Fields(Lower(raw.part), Lower(raw.vendor), Lower(raw.product))) else None
  {
  }

  /**
   A 2.3 string of any whole fields, white space around it: it parses exactly when it has a part, a vendor and a
   product that name something, and then to these in lower case, whatever follows.
   */
  lemma FormattedParses(fields: seq<string>, a: string, b: string, unquote: string -> string)
    requires |fields| >= 3 && WellSplit(fields) && Lower(fields[0]) == "cpe" && fields[1] == "2.3"
    requires IsTrimmed(Join(fields)) && IsBlanks(a) && IsBlanks(b)
    ensures CpeFields(a + Join(fields) + b, unquote)
         == if |fields| >= 5 && Lower(fields[2]) in {"a", "o", "h"}
               && fields[3] !in {"", "*", "-"} && fields[4] !in {"", "*", "-"}
            then Some(Fields(Lower(fields[2]), Lower(fields[3]), Lower(fields[4]))) else None
  {
    StripTells(a, Join(fields), b);
    RawOfFormatted(fields, unquote);
    if |fields| >= 5 {
      FieldsOfRaw(a + Join(fields) + b, Fields(fields[2], fields[3], fields[4]), unquote);
    }
  }

  /** Letters, digits, full stop, underscore and hyphen stay; anything else gets a backslash before it. */
  lemma EscapeOfOne(c: char)
    ensures Escape([c]) == if 'a' <= c <= 'z' || 'A' <= c <= 'Z' || '0' <= c <= '9' || c in {'.', '_', '-'} then [c]
                           else ['\\', c]
  {
    assert [c][1..] == "" && Escape("") == "";
  }

  lemma {:induction false} EscapeOfTwo(s: string, t: string)
    ensures Escape(s + t) == Escape(s) + Escape(t)
  {
    if s == "" {
      assert s + t == t;
    } else {
      assert (s + t)[1..] == s[1..] + t;
      EscapeOfTwo(s[1..], t);
    }
  }

  lemma EscapedIsAnyIff(s: string)
    ensures IsAny(Escape(s)) <==> s in {"", "-"}
  {
    if s != "" {
      assert s == [s[0]] + s[1..];
      EscapeOfTwo([s[0]], s[1..]);
      EscapeOfOne(s[0]);
      if |s| > 1 {
        EscapeIsLonger(s[1..]);
      } else {
        assert s[1..] == "";
      }
    }
  }

  lemma {:induction false} EscapeIsLonger(s: string)
    ensures |Escape(s)| >= |s|
  {
    if s != "" {
      EscapeIsLonger(s[1..]);
    }
  }

  lemma {:induction false} SplitColonsInvertsJoin(fields: seq<string>)
    requires fields != [] && forall i :: 0 <= i < |fields| ==> NoColon(fields[i])
    ensures SplitColons("", Join(fields)) == fields
  {
    assert "" + fields[0] == fields[0];
    if |fields| == 1 {
      ColonsReadField("", fields[0], "");
    } else {
      ColonsReadField("", fields[0], Join(fields[1..]));
      SplitColonsInvertsJoin(fields[1..]);
    }
  }

  lemma HeadOfUri(scheme: string, rest: string)
    requires Lower(scheme) == "cpe:/"
    ensures StartsWith(Lower(scheme + rest), "cpe:/") && !StartsWith(Lower(scheme + rest), "cpe:2.3:")
    ensures (scheme + rest)[5..] == rest
  {
    LowerOfTwo(scheme, rest);
    assert Lower(scheme + rest)[4] == '/' && "cpe:2.3:"[4] == '2';
  }

  lemma RawOfUri(scheme: string, fields: seq<string>, unquote: string -> string)
    requires fields != [] && (forall i :: 0 <= i < |fields| ==> NoColon(fields[i])) && Lower(scheme) == "cpe:/"
    ensures RawFields(scheme + Join(fields), unquote)
         == if |fields| < 3 then None
            else Some(Fields(fields[0], Escape(unquote(fields[1])), Escape(unquote(fields[2]))))
  {
    HeadOfUri(scheme, Join(fields));
    SplitColonsInvertsJoin(fields);
  }

  /**
   A 2.2 URI of any fields, white space around it: it parses exactly when part, vendor and product are there and name
   something once decoded; a decoded asterisk does, since it is escaped before it is looked at.
   */
  lemma UriFormParses(scheme: string, fields: seq<string>, a: string, b: string, unquote: string -> string)
    requires fields != [] && (forall i :: 0 <= i < |fields| ==> NoColon(fields[i])) && Lower(scheme) == "cpe:/"
    requires IsTrimmed(scheme + Join(fields)) && IsBlanks(a) && IsBlanks(b)
    ensures CpeFields(a + (scheme + Join(fields)) + b, unquote)
         == if |fields| >= 3 && Lower(fields[0]) in {"a", "o", "h"}
               && unquote(fields[1]) !in {"", "-"} && unquote(fields[2]) !in {"", "-"}
            then Some(Fields(Lower(fields[0]), Lower(Escape(unquote(fields[1]))), Lower(Escape(unquote(fields[2])))))
            else None
  {
    StripTells(a, scheme + Join(fields), b);
    RawOfUri(scheme, fields, unquote);
    if |fields| >= 3 {
      var v, p := Escape(unquote(fields[1])), Escape(unquote(fields[2]));
      EscapedIsAnyIff(unquote(fields[1]));
      EscapedIsAnyIff(unquote(fields[2]));
      FieldsOfRaw(a + (scheme + Join(fields)) + b, Fields(fields[0], v, p), unquote);
      assert IsAny(v) <==> v in {"", "*", "-"};
      assert IsAny(p) <==> p in {"", "*", "-"};
    }
  }

  /** Nothing else parses. */
  lemma OthersDoNotParse(s: string, a: string, b: string, unquote: string -> string)
    requires IsTrimmed(s) && IsBlanks(a) && IsBlanks(b)
    requires !StartsWith(Lower(s), "cpe:2.3:") && !StartsWith(Lower(s), "cpe:/")
    ensures CpePrefix(a + s + b, unquote) == None
  {
    StripTells(a, s, b);
  }

  lemma {:induction false} EscapeKeepsBackslashEnd(s: string)
    ensures EndsIn(Escape(s), BACKSLASH) <==> EndsIn(s, BACKSLASH)
    ensures s != "" ==> Escape(s) != ""
  {
    if s == "" {
    } else if |s| == 1 {
      assert Escape(s[1..]) == "";
    } else {
      EscapeKeepsBackslashEnd(s[1..]);
    }
  }

  /**
   The exception is a whole family: every 2.2 URI whose vendor decodes to something ending in a backslash gets a
   prefix that no longer names a product.
   */
  lemma BackslashVendorIsLost(vendor: string, product: string, unquote: string -> string)
    requires NoColon(vendor) && NoColon(product) && product != "" && !EndsInSpace(product)
    requires EndsIn(unquote(vendor), BACKSLASH) && !IsAny(Escape(unquote(product)))
    requires !IsAny(Escape(unquote(vendor)))
    ensures var cpe := "cpe:/" + Sep("a", Sep(vendor, product));
            && CpePrefix(cpe, unquote).Some?
            && CpePrefix(CpePrefix(cpe, unquote).value, unquote) == None
  {
    var f := UriFields(vendor, product, unquote);
    EscapeKeepsBackslashEnd(unquote(vendor));
    LowerKeepsShape(Escape(unquote(vendor)));
    LostAfterBackslash(f, unquote);
  }

  lemma UriFields(vendor: string, product: string, unquote: string -> string) returns (f: Fields)
    requires NoColon(vendor) && NoColon(product) && product != "" && !EndsInSpace(product)
    requires !IsAny(Escape(unquote(vendor))) && !IsAny(Escape(unquote(product)))
    ensures CpeFields("cpe:/" + Sep("a", Sep(vendor, product)), unquote) == Some(f)
    ensures f == Fields("a", Lower(Escape(unquote(vendor))), Lower(Escape(unquote(product))))
    ensures Printable(f)
  {
    var cpe := "cpe:/" + Sep("a", Sep(vendor, product));
    var v, p := Escape(unquote(vendor)), Escape(unquote(product));
    assert cpe[0] == 'c' && cpe[|cpe| - 1] == product[|product| - 1] && Strip(cpe) == cpe;
    UriParses("a", vendor, product, unquote);
    UriPrintable(v, p, unquote(vendor), unquote(product));
    assert Lower("a") == "a";
    f := Fields("a", Lower(v), Lower(p));
  }

  lemma UriPrintable(v: string, p: string, vendor: string, product: string)
    requires v == Escape(vendor) && p == Escape(product) && !IsAny(v) && !IsAny(p)
    ensures Printable(Fields("a", Lower(v), Lower(p)))
  {
    EscapeIsWhole(vendor);
    EscapeIsWhole(product);
    LowerKeepsShape(v);
    LowerKeepsShape(p);
  }

  lemma LostAfterBackslash(f: Fields, unquote: string -> string)
    requires Printable(f) && EndsIn(f.vendor, BACKSLASH)
    ensures CpePrefix(Print(f), unquote) == None
  {
    StripPrinted(f);
    StripRightShortens(f.product);
    RawOfPrinted(f.(product := StripRight(f.product)), unquote);
  }
}
