/**
 The preview and the import of an SBOM (app/services/sbom_service.py), against one organisation's vendors.
 */
module SbomService {
  import opened Wrappers
  import opened Cpe
  import opened Sbom

  const MAX_IMPORT := 500

  /** Rows of one organisation's vendor table. */
  datatype Vendor = Vendor(name: string, cpePrefix: Option<string>, isMapped: bool)

  datatype Status = New | Exists | Duplicate

  /** A row the client sends back; either text may be missing. */
  datatype Item = Item(name: Option<string>, cpePrefix: Option<string>)

  datatype Reason = EmptyName | InvalidCpe | AlreadyExists

  datatype Skip = Skip(name: string, reason: Reason)

  datatype Refusal = TooManyItems | PlanLimit

  datatype Outcome = Refused(why: Refusal) | Imported(names: seq<string>, skipped: seq<Skip>)

  function NamesOf(table: seq<Vendor>, t: Text): set<string> {
    set v | v in table :: t.casefold(v.name)
  }

  /** A stored prefix as it takes part in matching: normalised where possible, as typed otherwise. */
  function Normal(prefix: string, t: Text): string {
    match CpePrefix(prefix, t.unquote)
    case Some(p) => p
    case None => prefix
  }

  function PrefixesOf(table: seq<Vendor>, t: Text): set<string> {
    set v | v in table && Present(v.cpePrefix) :: Normal(v.cpePrefix.value, t)
  }

  // ---------------------------------------------------------------------------
  // Preview
  // ---------------------------------------------------------------------------

  predicate Known(c: Candidate, names: set<string>, prefixes: set<string>, t: Text) {
    t.casefold(c.name) in names || (Present(c.cpePrefix) && c.cpePrefix.value in prefixes)
  }

  /** The mark of row `i`: known to the organisation, or named like an earlier row, or new. */
  function MarkOf(cs: seq<Candidate>, i: nat, names: set<string>, prefixes: set<string>, t: Text): Status
    requires i < |cs|
  {
    if Known(cs[i], names, prefixes, t) then Exists
    else if exists j :: 0 <= j < i && t.casefold(cs[j].name) == t.casefold(cs[i].name) then Duplicate
    else New
  }

  /** Each row of a preview gets its mark from the vendors there are and the rows above it. */
  method Preview(table: seq<Vendor>, cs: seq<Candidate>, t: Text) returns (marks: seq<Status>)
    ensures |marks| == |cs|
    ensures forall i :: 0 <= i < |cs| ==> marks[i] == MarkOf(cs, i, NamesOf(table, t), PrefixesOf(table, t), t)
  {
    var names, prefixes := NamesOf(table, t), PrefixesOf(table, t);
    var seen: set<string> := {};
    marks := [];
    for i := 0 to |cs|
      invariant |marks| == i
      invariant seen == set j | 0 <= j < i :: t.casefold(cs[j].name)
      invariant forall j :: 0 <= j < i ==> marks[j] == MarkOf(cs, j, names, prefixes, t)
    {
      var key := t.casefold(cs[i].name);
      if Known(cs[i], names, prefixes, t) {
        marks := marks + [Exists];
      } else if key in seen {
        marks := marks + [Duplicate];
      } else {
        marks := marks + [New];
      }
      seen := seen + {key};
    }
  }

  // ---------------------------------------------------------------------------
  // Import
  // ---------------------------------------------------------------------------

  function ItemName(item: Item): string {
    Cut(Strip(if item.name.Some? then item.name.value else ""), 200)
  }

  function ItemPrefix(item: Item, t: Text): Option<string> {
    if Present(item.cpePrefix) then CpePrefix(item.cpePrefix.value, t.unquote) else None
  }

  function WhySkip(item: Item, names: set<string>, prefixes: set<string>, t: Text): Option<Reason> {
    var name, prefix := ItemName(item), ItemPrefix(item, t);
    if name == "" then Some(EmptyName)
    else if Present(item.cpePrefix) && prefix == None then Some(InvalidCpe)
    else if t.casefold(name) in names || (prefix.Some? && prefix.value in prefixes) then Some(AlreadyExists)
    else None
  }

  function VendorFor(item: Item, t: Text): Vendor {
    Vendor(ItemName(item), ItemPrefix(item, t), false)
  }

  function Taken(prefix: Option<string>): set<string> {
    if prefix.Some? then {prefix.value} else {}
  }

  datatype Sifted = Sifted(created: seq<Vendor>, skipped: seq<Skip>)

  /** What the loop of `import_vendors` makes of the items, given the names and prefixes already taken. */
  function Sift(items: seq<Item>, names: set<string>, prefixes: set<string>, t: Text): Sifted {
    if items == [] then Sifted([], []) else
    var item := items[0];
    match WhySkip(item, names, prefixes, t)
    case Some(why) =>
      var rest := Sift(items[1..], names, prefixes, t);
      rest.(skipped := [Skip(ItemName(item), why)] + rest.skipped)
    case None =>
      var v := VendorFor(item, t);
      var rest := Sift(items[1..], names + {t.casefold(v.name)}, prefixes + Taken(v.cpePrefix), t);
      rest.(created := [v] + rest.created)
  }

  predicate HasRoom(table: seq<Vendor>, adding: nat, maxVendors: Option<nat>) {
    maxVendors.None? || adding == 0 || |table| + adding <= maxVendors.value
  }

  function NamesIn(vs: seq<Vendor>): seq<string> {
    if vs == [] then [] else [vs[0].name] + NamesIn(vs[1..])
  }

  function ImportOutcome(table: seq<Vendor>, items: seq<Item>, maxVendors: Option<nat>, t: Text): Outcome {
    var s := Sift(items, NamesOf(table, t), PrefixesOf(table, t), t);
    if |items| > MAX_IMPORT then Refused(TooManyItems)
    else if !HasRoom(table, |s.created|, maxVendors) then Refused(PlanLimit)
    else Imported(NamesIn(s.created), s.skipped)
  }

  function ImportTable(table: seq<Vendor>, items: seq<Item>, maxVendors: Option<nat>, t: Text): seq<Vendor> {
    if ImportOutcome(table, items, maxVendors, t).Refused? then table
    else table + Sift(items, NamesOf(table, t), PrefixesOf(table, t), t).created
  }

  lemma Shift<T>(a: seq<T>, x: T, b: seq<T>)
    ensures (a + [x]) + b == a + ([x] + b)
  {
  }

  class VendorTable {
    var rows: seq<Vendor>

    constructor (rows: seq<Vendor>)
      ensures this.rows == rows
    {
      this.rows := rows;
    }

    /** The import of a batch; `maxVendors` is the plan's limit, None when it is unlimited. */
    method ImportVendors(items: seq<Item>, maxVendors: Option<nat>, t: Text) returns (outcome: Outcome)
      modifies this
      ensures outcome == ImportOutcome(old(rows), items, maxVendors, t)
      ensures rows == ImportTable(old(rows), items, maxVendors, t)
    {
      if |items| > MAX_IMPORT {
        return Refused(TooManyItems);
      }
      var names, prefixes := NamesOf(rows, t), PrefixesOf(rows, t);
      ghost var whole := Sift(items, names, prefixes, t);
      var created: seq<Vendor>, skipped: seq<Skip> := [], [];
      for i := 0 to |items|
        invariant rows == old(rows)
        invariant var rest := Sift(items[i..], names, prefixes, t);
                  whole == Sifted(created + rest.created, skipped + rest.skipped)
      {
        var item := items[i];
        assert items[i..][0] == item && items[i..][1..] == items[i + 1..];
        var name := ItemName(item);
        var prefix := ItemPrefix(item, t);
        ghost var why := WhySkip(item, names, prefixes, t);
        if why.Some? {
          Shift(skipped, Skip(name, why.value), Sift(items[i + 1..], names, prefixes, t).skipped);
        } else {
          Shift(created, VendorFor(item, t),
                Sift(items[i + 1..], names + {t.casefold(name)}, prefixes + Taken(prefix), t).created);
        }
        if name == "" {
          skipped := skipped + [Skip(name, EmptyName)];
        } else if Present(item.cpePrefix) && prefix == None {
          skipped := skipped + [Skip(name, InvalidCpe)];
        } else if t.casefold(name) in names || (prefix.Some? && prefix.value in prefixes) {
          skipped := skipped + [Skip(name, AlreadyExists)];
        } else {
          created := created + [Vendor(name, prefix, false)];
          names := names + {t.casefold(name)};
          prefixes := prefixes + Taken(prefix);
        }
      }
      assert items[|items|..] == [] && created + [] == created && skipped + [] == skipped;
      assert whole == Sifted(created, skipped);
      if !HasRoom(rows, |created|, maxVendors) {
        return Refused(PlanLimit);
      }
      rows := rows + created;
      outcome := Imported(NamesIn(created), skipped);
    }
  }

  // ---------------------------------------------------------------------------
  // What an import guarantees
  // ---------------------------------------------------------------------------

  /** No two rows share a folded name or a matching prefix, and none of them is taken. */
  predicate ClashFree(vs: seq<Vendor>, names: set<string>, prefixes: set<string>, t: Text) {
    && (forall i :: 0 <= i < |vs| ==> t.casefold(vs[i].name) !in names
                                      && (vs[i].cpePrefix.Some? ==> vs[i].cpePrefix.value !in prefixes))
    && (forall i, j :: 0 <= i < j < |vs| ==>
          && t.casefold(vs[i].name) != t.casefold(vs[j].name)
          && (vs[i].cpePrefix.Some? ==> vs[i].cpePrefix != vs[j].cpePrefix))
  }

  lemma ClashFreeCons(v: Vendor, rest: seq<Vendor>, names: set<string>, prefixes: set<string>, t: Text)
    ensures ClashFree([v] + rest, names, prefixes, t)
       <==> (t.casefold(v.name) !in names && (v.cpePrefix.Some? ==> v.cpePrefix.value !in prefixes)
             && ClashFree(rest, names + {t.casefold(v.name)}, prefixes + Taken(v.cpePrefix), t))
  {
    var vs := [v] + rest;
    assert vs[0] == v && forall i :: 0 <= i < |rest| ==> rest[i] == vs[i + 1];
    var more, taken := names + {t.casefold(v.name)}, prefixes + Taken(v.cpePrefix);
    if ClashFree(vs, names, prefixes, t) {
      forall i | 0 <= i < |rest|
        ensures t.casefold(rest[i].name) !in more && (rest[i].cpePrefix.Some? ==> rest[i].cpePrefix.value !in taken)
      {
        assert vs[i + 1] == rest[i];
      }
    }
    if ClashFree(rest, more, taken, t) && t.casefold(v.name) !in names
       && (v.cpePrefix.Some? ==> v.cpePrefix.value !in prefixes) {
      forall i | 0 <= i < |vs|
        ensures t.casefold(vs[i].name) !in names && (vs[i].cpePrefix.Some? ==> vs[i].cpePrefix.value !in prefixes)
      {
        if i > 0 { assert vs[i] == rest[i - 1]; }
      }
      forall i, j | 0 <= i < j < |vs|
        ensures t.casefold(vs[i].name) != t.casefold(vs[j].name)
        ensures vs[i].cpePrefix.Some? ==> vs[i].cpePrefix != vs[j].cpePrefix
      {
        assert vs[j] == rest[j - 1];
        if i > 0 { assert vs[i] == rest[i - 1]; }
      }
    }
  }

  /** Every item ends up created or skipped, and what is created clashes with nothing taken, by folded name or prefix.
      The prefixes taken by the table are in their matched form, see PrefixesOf. */
  lemma {:induction false} SiftNeverClashes(items: seq<Item>, names: set<string>, prefixes: set<string>, t: Text)
    ensures var s := Sift(items, names, prefixes, t);
            && |s.created| + |s.skipped| == |items|
            && ClashFree(s.created, names, prefixes, t)
            && forall i :: 0 <= i < |s.created| ==> s.created[i].name != "" && !s.created[i].isMapped
    decreases |items|
  {
    if items == [] {
    } else {
      match WhySkip(items[0], names, prefixes, t) {
        case Some(_) => SiftNeverClashes(items[1..], names, prefixes, t);
        case None =>
          var v := VendorFor(items[0], t);
          SiftNeverClashes(items[1..], names + {t.casefold(v.name)}, prefixes + Taken(v.cpePrefix), t);
          var rest := Sift(items[1..], names + {t.casefold(v.name)}, prefixes + Taken(v.cpePrefix), t);
          ClashFreeCons(v, rest.created, names, prefixes, t);
      }
    }
  }

  predicate Acceptable(item: Item, t: Text) {
    ItemName(item) != "" && (Present(item.cpePrefix) ==> ItemPrefix(item, t).Some?)
  }

  function VendorsFor(items: seq<Item>, t: Text): (vs: seq<Vendor>)
    ensures |vs| == |items|
    ensures forall i :: 0 <= i < |items| ==> vs[i] == VendorFor(items[i], t)
  {
    if items == [] then [] else [VendorFor(items[0], t)] + VendorsFor(items[1..], t)
  }

  /** An import skips nothing exactly when every item is acceptable and the vendors they stand for clash with nothing;
      it then creates one vendor per item, in order. */
  lemma {:induction false} SkipsNothingIff(items: seq<Item>, names: set<string>, prefixes: set<string>, t: Text)
    ensures var s := Sift(items, names, prefixes, t);
            && (s.skipped == []
                <==> ((forall i :: 0 <= i < |items| ==> Acceptable(items[i], t))
                      && ClashFree(VendorsFor(items, t), names, prefixes, t)))
            && (s.skipped == [] ==> s.created == VendorsFor(items, t))
    decreases |items|
  {
    if items == [] {
    } else {
      var item, rest := items[0], items[1..];
      var v := VendorFor(item, t);
      var more, taken := names + {t.casefold(v.name)}, prefixes + Taken(v.cpePrefix);
      assert (forall i :: 0 <= i < |items| ==> Acceptable(items[i], t))
        <==> (Acceptable(item, t) && forall i :: 0 <= i < |rest| ==> Acceptable(rest[i], t)) by {
        assert forall i :: 0 <= i < |rest| ==> rest[i] == items[i + 1];
        assert forall i :: 0 < i < |items| ==> items[i] == rest[i - 1];
      }
      ClashFreeCons(v, VendorsFor(rest, t), names, prefixes, t);
      SkipsNothingIff(rest, more, taken, t);
    }
  }

  /**
   An import is one transaction: a refused import leaves the table alone, an accepted one accounts for every item,
   adds only below the existing rows and within the limit, and no created vendor clashes with another created one, nor
   with a row of the table by folded name or by its prefix in matched form.
   */
  lemma ImportIsAllOrNothing(table: seq<Vendor>, items: seq<Item>, maxVendors: Option<nat>, t: Text)
    ensures var after := ImportTable(table, items, maxVendors, t);
            var s := Sift(items, NamesOf(table, t), PrefixesOf(table, t), t);
            match ImportOutcome(table, items, maxVendors, t)
            case Refused(why) =>
              && after == table
              && (why == TooManyItems <==> |items| > 500)
              && (why == PlanLimit <==> |items| <= 500 && maxVendors.Some?
                                        && |s.created| > 0 && |table| + |s.created| > maxVendors.value)
            case Imported(names, skipped) =>
              && |names| + |skipped| == |items| <= MAX_IMPORT
              && table <= after && |after| == |table| + |names|
              && (maxVendors.Some? && names != [] ==> |after| <= maxVendors.value)
              && ClashFree(after[|table|..], NamesOf(table, t), PrefixesOf(table, t), t)
  {
    var s := Sift(items, NamesOf(table, t), PrefixesOf(table, t), t);
    SiftNeverClashes(items, NamesOf(table, t), PrefixesOf(table, t), t);
    NamesInCounts(s.created);
    assert (table + s.created)[|table|..] == s.created;
  }

  lemma NamesInCounts(vs: seq<Vendor>)
    ensures |NamesIn(vs)| == |vs|
    ensures forall i :: 0 <= i < |vs| ==> NamesIn(vs)[i] == vs[i].name
  {
  }

  // ---------------------------------------------------------------------------
  // Any number of imports
  // ---------------------------------------------------------------------------

  predicate DistinctNames(table: seq<Vendor>, t: Text) {
    forall i, j :: 0 <= i < j < |table| ==> t.casefold(table[i].name) != t.casefold(table[j].name)
  }

  /** The table after importing each batch in turn, accepted or refused. */
  function Imports(table: seq<Vendor>, batches: seq<seq<Item>>, maxVendors: Option<nat>, t: Text): seq<Vendor> {
    if batches == [] then table
    else ImportTable(Imports(table, batches[..|batches| - 1], maxVendors, t), batches[|batches| - 1], maxVendors, t)
  }

  lemma ImportKeepsNamesDistinct(table: seq<Vendor>, items: seq<Item>, maxVendors: Option<nat>, t: Text)
    requires DistinctNames(table, t)
    ensures DistinctNames(ImportTable(table, items, maxVendors, t), t)
  {
    ImportIsAllOrNothing(table, items, maxVendors, t);
    var after := ImportTable(table, items, maxVendors, t);
    forall i, j | 0 <= i < j < |after| ensures t.casefold(after[i].name) != t.casefold(after[j].name) {
      if |table| <= j {
        assert after[|table|..][j - |table|] == after[j];
        if i < |table| {
          assert after[i] == table[i];
        } else {
          assert after[|table|..][i - |table|] == after[i];
        }
      }
    }
  }

  predicate NoneWobble(batches: seq<seq<Item>>, t: Text) {
    forall i, item :: 0 <= i < |batches| && item in batches[i] ==> !Wobbles(item, t)
  }

  /** Whatever is imported, vendors stay distinct by folded name, none disappears, and the plan's limit is kept. Stored
      prefixes stay distinct too as long as no item wobbles; see PrefixesStayDistinctIff. */
  lemma {:induction false} ImportsKeepTheTable(table: seq<Vendor>, batches: seq<seq<Item>>, maxVendors: Option<nat>,
                                               t: Text)
    requires DistinctNames(table, t)
    ensures var after := Imports(table, batches, maxVendors, t);
            && DistinctNames(after, t) && table <= after
            && (maxVendors.Some? ==> |after| <= |table| || |after| <= maxVendors.value)
            && (DistinctStored(table) && NoneWobble(batches, t) ==> DistinctStored(after))
  {
    if batches != [] {
      var before := Imports(table, batches[..|batches| - 1], maxVendors, t);
      ImportsKeepTheTable(table, batches[..|batches| - 1], maxVendors, t);
      ImportKeepsNamesDistinct(before, batches[|batches| - 1], maxVendors, t);
      ImportIsAllOrNothing(before, batches[|batches| - 1], maxVendors, t);
    }
    if DistinctStored(table) && NoneWobble(batches, t) {
      ImportsKeepStoredDistinct(table, batches, maxVendors, "", t);
    }
  }

  lemma {:induction false} CreatedComeFrom(items: seq<Item>, names: set<string>, prefixes: set<string>, t: Text,
                                           v: Vendor)
    requires v in Sift(items, names, prefixes, t).created
    ensures exists item :: item in items && v == VendorFor(item, t)
    decreases |items|
  {
    if WhySkip(items[0], names, prefixes, t).Some? {
      CreatedComeFrom(items[1..], names, prefixes, t, v);
    } else if v != VendorFor(items[0], t) {
      CreatedComeFrom(items[1..], names + {t.casefold(ItemName(items[0]))},
                      prefixes + Taken(ItemPrefix(items[0], t)), t, v);
    }
  }

  // Prefixes as they are stored

  /** The item's prefix would be stored with white space at the end, but be matched without it. */
  predicate Wobbles(item: Item, t: Text) {
    Present(item.cpePrefix)
    && CpeFields(item.cpePrefix.value, t.unquote).Some? && Wobbly(CpeFields(item.cpePrefix.value, t.unquote).value)
  }

  lemma WobblesIff(item: Item, t: Text)
    requires ItemPrefix(item, t).Some?
    ensures ItemPrefix(item, t).value != ""
    ensures Wobbles(item, t) <==> Normal(ItemPrefix(item, t).value, t) != ItemPrefix(item, t).value
  {
    var f := CpeFields(item.cpePrefix.value, t.unquote).value;
    ParsedFields(item.cpePrefix.value, t.unquote);
    WobblyIff(f, t.unquote);
    PrintLength(f);
  }

  predicate DistinctStored(table: seq<Vendor>) {
    forall i, j :: 0 <= i < j < |table| && Present(table[i].cpePrefix) ==> table[i].cpePrefix != table[j].cpePrefix
  }

  /** A created vendor whose prefix does not wobble has a prefix that no row of the table stores. */
  lemma CreatedIsNew(table: seq<Vendor>, items: seq<Item>, t: Text, row: Vendor, v: Vendor)
    requires forall item :: item in items ==> !Wobbles(item, t)
    requires row in table && Present(row.cpePrefix)
    requires v in Sift(items, NamesOf(table, t), PrefixesOf(table, t), t).created
    ensures row.cpePrefix != v.cpePrefix
  {
    SiftNeverClashes(items, NamesOf(table, t), PrefixesOf(table, t), t);
    CreatedComeFrom(items, NamesOf(table, t), PrefixesOf(table, t), t, v);
    var item :| item in items && v == VendorFor(item, t);
    if ItemPrefix(item, t).Some? {
      WobblesIff(item, t);
    }
    assert Normal(row.cpePrefix.value, t) in PrefixesOf(table, t);
  }

  /** An import without such items stores no prefix twice. */
  lemma ImportKeepsStoredDistinct(table: seq<Vendor>, items: seq<Item>, maxVendors: Option<nat>, t: Text)
    requires DistinctStored(table) && forall item :: item in items ==> !Wobbles(item, t)
    ensures DistinctStored(ImportTable(table, items, maxVendors, t))
  {
    SiftNeverClashes(items, NamesOf(table, t), PrefixesOf(table, t), t);
    var created := Sift(items, NamesOf(table, t), PrefixesOf(table, t), t).created;
    forall i, j | 0 <= i < |table| && 0 <= j < |created| && Present(table[i].cpePrefix)
      ensures table[i].cpePrefix != created[j].cpePrefix
    {
      CreatedIsNew(table, items, t, table[i], created[j]);
    }
  }

  /** Any number of imports in which no item wobbles, except for those with the prefix `raw`. */
  predicate Steady(batches: seq<seq<Item>>, raw: string, t: Text) {
    forall i, item :: 0 <= i < |batches| && item in batches[i] ==> !Wobbles(item, t) || item.cpePrefix == Some(raw)
  }

  /** Prefixes stay distinct as stored, from any table in which they are and through any imports that may use `raw`. */
  ghost predicate KeepsPrefixesDistinct(raw: string, t: Text) {
    forall table, batches, maxVendors ::
      DistinctStored(table) && Steady(batches, raw, t) ==> DistinctStored(Imports(table, batches, maxVendors, t))
  }

  lemma {:induction false} ImportsKeepStoredDistinct(table: seq<Vendor>, batches: seq<seq<Item>>,
                                                     maxVendors: Option<nat>, raw: string, t: Text)
    requires DistinctStored(table) && Steady(batches, raw, t) && !Wobbles(Item(None, Some(raw)), t)
    ensures DistinctStored(Imports(table, batches, maxVendors, t))
  {
    if batches != [] {
      var init, items := batches[..|batches| - 1], batches[|batches| - 1];
      ImportsKeepStoredDistinct(table, init, maxVendors, raw, t);
      forall item | item in items ensures !Wobbles(item, t) {
        assert !Wobbles(item, t) || item.cpePrefix == Some(raw);
      }
      ImportKeepsStoredDistinct(Imports(table, init, maxVendors, t), items, maxVendors, t);
    }
  }

  // ---------------------------------------------------------------------------
  // Row by row
  // ---------------------------------------------------------------------------

  /** A vendor of the organisation has this folded name, or this prefix once its own is normalised. */
  ghost predicate InTable(table: seq<Vendor>, name: string, prefix: Option<string>, t: Text) {
    || (exists v :: v in table && t.casefold(v.name) == t.casefold(name))
    || (prefix.Some? && prefix.value != ""
        && exists v :: v in table && v.cpePrefix.Some? && v.cpePrefix.value != ""
             && prefix == (if CpePrefix(v.cpePrefix.value, t.unquote).Some? then CpePrefix(v.cpePrefix.value, t.unquote)
                           else v.cpePrefix))
  }

  lemma KnownIff(table: seq<Vendor>, name: string, prefix: Option<string>, t: Text)
    ensures InTable(table, name, prefix, t)
       <==> t.casefold(name) in NamesOf(table, t)
            || (Present(prefix) && prefix.value in PrefixesOf(table, t))
  {
    if t.casefold(name) in NamesOf(table, t) {
      var v :| v in table && t.casefold(v.name) == t.casefold(name);
    }
    if Present(prefix) && prefix.value in PrefixesOf(table, t) {
      var v :| v in table && Present(v.cpePrefix) && Normal(v.cpePrefix.value, t) == prefix.value;
    }
  }

  /** What a preview says of row `i`: a vendor exists, or an earlier row has its folded name, or it is new. */
  lemma MarkTells(table: seq<Vendor>, cs: seq<Candidate>, i: nat, t: Text)
    requires i < |cs|
    ensures var mark := MarkOf(cs, i, NamesOf(table, t), PrefixesOf(table, t), t);
            var exists_ := InTable(table, cs[i].name, cs[i].cpePrefix, t);
            var earlier := exists j :: 0 <= j < i && t.casefold(cs[j].name) == t.casefold(cs[i].name);
            && (mark == Exists <==> exists_)
            && (mark == Duplicate <==> !exists_ && earlier)
            && (mark == New <==> !exists_ && !earlier)
  {
    KnownIff(table, cs[i].name, cs[i].cpePrefix, t);
  }

  /** The name of an item is its text without white space around it, cut to 200 characters. */
  lemma ItemNameTells(item: Item)
    ensures var text := if item.name == None then "" else item.name.value;
            ItemName(item) <= Strip(text) && |ItemName(item)| == if |Strip(text)| < 200 then |Strip(text)| else 200
  {
  }

  function PrefixesTaken(vs: seq<Vendor>): set<string> {
    set v | v in vs && v.cpePrefix.Some? :: v.cpePrefix.value
  }

  /** One more item comes after what the others have created. */
  lemma {:induction false} SiftAppends(items: seq<Item>, item: Item, names: set<string>, prefixes: set<string>, t: Text)
    ensures var s := Sift(items, names, prefixes, t);
            var why := WhySkip(item, names + NamesOf(s.created, t), prefixes + PrefixesTaken(s.created), t);
            Sift(items + [item], names, prefixes, t)
              == if why.Some? then Sifted(s.created, s.skipped + [Skip(ItemName(item), why.value)])
                 else Sifted(s.created + [VendorFor(item, t)], s.skipped)
    decreases |items|
  {
    if items == [] {
      assert [item][1..] == [] && [] + [item] == [item];
      assert names + {} == names && prefixes + {} == prefixes;
    } else {
      var first, rest := items[0], items[1..];
      assert (items + [item])[1..] == rest + [item];
      if WhySkip(first, names, prefixes, t).Some? {
        SiftAppends(rest, item, names, prefixes, t);
      } else {
        var v := VendorFor(first, t);
        var more, taken := names + {t.casefold(v.name)}, prefixes + Taken(v.cpePrefix);
        SiftAppends(rest, item, more, taken, t);
        TakenByFirst(v, Sift(rest, more, taken, t).created, names, prefixes, t);
      }
    }
  }

  lemma TakenByFirst(v: Vendor, rest: seq<Vendor>, names: set<string>, prefixes: set<string>, t: Text)
    ensures names + {t.casefold(v.name)} + NamesOf(rest, t) == names + NamesOf([v] + rest, t)
    ensures prefixes + Taken(v.cpePrefix) + PrefixesTaken(rest) == prefixes + PrefixesTaken([v] + rest)
  {
    assert forall w :: w in [v] + rest <==> w == v || w in rest;
    assert NamesOf([v] + rest, t) == {t.casefold(v.name)} + NamesOf(rest, t);
    assert PrefixesTaken([v] + rest) == Taken(v.cpePrefix) + PrefixesTaken(rest);
  }

  /** The table, or a vendor created before, has this folded name or this prefix. */
  ghost predicate Clashes(table: seq<Vendor>, created: seq<Vendor>, name: string, prefix: Option<string>, t: Text) {
    || InTable(table, name, prefix, t)
    || exists v :: v in created && (t.casefold(v.name) == t.casefold(name) || (prefix.Some? && v.cpePrefix == prefix))
  }

  /** The prefix that an item names, if it gives one. */
  function GivenPrefix(item: Item, t: Text): Option<string> {
    if item.cpePrefix.None? || item.cpePrefix.value == "" then None else CpePrefix(item.cpePrefix.value, t.unquote)
  }

  lemma WhyTells(table: seq<Vendor>, created: seq<Vendor>, item: Item, t: Text)
    ensures var why := WhySkip(item, NamesOf(table, t) + NamesOf(created, t),
                               PrefixesOf(table, t) + PrefixesTaken(created), t);
            var name, prefix := ItemName(item), GivenPrefix(item, t);
            why == if name == "" then Some(EmptyName)
                   else if item.cpePrefix.Some? && item.cpePrefix.value != "" && prefix == None then Some(InvalidCpe)
                   else if Clashes(table, created, name, prefix, t) then Some(AlreadyExists)
                   else None
  {
    var name, prefix := ItemName(item), GivenPrefix(item, t);
    assert prefix == ItemPrefix(item, t);
    KnownIff(table, name, prefix, t);
    PrefixIsNotEmpty(item, t);
    ClashIff(created, name, prefix, t);
    var names, prefixes := NamesOf(table, t) + NamesOf(created, t), PrefixesOf(table, t) + PrefixesTaken(created);
    assert prefix.Some? <==> Present(prefix);
    assert Clashes(table, created, name, prefix, t)
      <==> t.casefold(name) in names || (prefix.Some? && prefix.value in prefixes);
  }

  /**
   What an import makes of an item after the others: without a name or with a prefix that names no product it is
   skipped, and so it is if the table, or what the others have created, has its folded name or its prefix; otherwise it
   becomes a vendor with that name and the normalised prefix, not assessed yet.
   */
  lemma ItemTells(table: seq<Vendor>, items: seq<Item>, item: Item, t: Text)
    ensures var s := Sift(items, NamesOf(table, t), PrefixesOf(table, t), t);
            var u := Sift(items + [item], NamesOf(table, t), PrefixesOf(table, t), t);
            var name, prefix := ItemName(item), GivenPrefix(item, t);
            u == if name == "" then Sifted(s.created, s.skipped + [Skip(name, EmptyName)])
                 else if item.cpePrefix.Some? && item.cpePrefix.value != "" && prefix == None
                 then Sifted(s.created, s.skipped + [Skip(name, InvalidCpe)])
                 else if Clashes(table, s.created, name, prefix, t)
                 then Sifted(s.created, s.skipped + [Skip(name, AlreadyExists)])
                 else Sifted(s.created + [Vendor(name, prefix, false)], s.skipped)
  {
    SiftAppends(items, item, NamesOf(table, t), PrefixesOf(table, t), t);
    WhyTells(table, Sift(items, NamesOf(table, t), PrefixesOf(table, t), t).created, item, t);
  }

  lemma PrefixIsNotEmpty(item: Item, t: Text)
    ensures ItemPrefix(item, t) != Some("")
  {
    if ItemPrefix(item, t).Some? {
      WobblesIff(item, t);
    }
  }

  lemma ClashIff(created: seq<Vendor>, name: string, prefix: Option<string>, t: Text)
    ensures (exists v :: v in created && (t.casefold(v.name) == t.casefold(name)
                                          || (prefix.Some? && v.cpePrefix == prefix)))
       <==> t.casefold(name) in NamesOf(created, t) || (prefix.Some? && prefix.value in PrefixesTaken(created))
  {
    if t.casefold(name) in NamesOf(created, t) {
      var v :| v in created && t.casefold(v.name) == t.casefold(name);
    }
    if prefix.Some? && prefix.value in PrefixesTaken(created) {
      var v :| v in created && v.cpePrefix.Some? && v.cpePrefix.value == prefix.value;
      assert v.cpePrefix == prefix;
    }
  }

  /** A name the import takes as it is. */
  predicate Importable(name: string) {
    name != "" && Cut(Strip(name), 200) == name
  }

  lemma SiftOne(item: Item, names: set<string>, prefixes: set<string>, t: Text)
    ensures Sift([item], names, prefixes, t).created
         == if WhySkip(item, names, prefixes, t).Some? then [] else [VendorFor(item, t)]
  {
    assert [item][1..] == [];
  }

  lemma ImportOne(table: seq<Vendor>, item: Item, t: Text)
    ensures ImportTable(table, [item], None, t)
         == if WhySkip(item, NamesOf(table, t), PrefixesOf(table, t), t).Some? then table
            else table + [VendorFor(item, t)]
  {
    SiftOne(item, NamesOf(table, t), PrefixesOf(table, t), t);
    assert table + [] == table;
  }

  lemma ImportsOfTwo(table: seq<Vendor>, a: seq<Item>, b: seq<Item>, maxVendors: Option<nat>, t: Text)
    ensures Imports(table, [a, b], maxVendors, t)
         == ImportTable(ImportTable(table, a, maxVendors, t), b, maxVendors, t)
  {
    assert [a, b][..1] == [a] && [a][..0] == [];
    assert Imports(table, [a][..0], maxVendors, t) == table;
    assert Imports(table, [a], maxVendors, t) == ImportTable(table, a, maxVendors, t);
  }

  function TwoImports(raw: string, a: string, b: string): seq<seq<Item>> {
    [[Item(Some(a), Some(raw))], [Item(Some(b), Some(raw))]]
  }

  lemma ImportIntoEmpty(item: Item, t: Text)
    requires Acceptable(item, t)
    ensures ImportTable([], [item], None, t) == [VendorFor(item, t)]
  {
    assert NamesOf([], t) == {} && PrefixesOf([], t) == {};
    ImportOne([], item, t);
  }

  lemma TakenByOne(v: Vendor, t: Text)
    requires Present(v.cpePrefix)
    ensures NamesOf([v], t) == {t.casefold(v.name)} && PrefixesOf([v], t) == {Normal(v.cpePrefix.value, t)}
  {
    assert v in [v];
  }

  lemma NotSkippedIff(item: Item, names: set<string>, prefixes: set<string>, t: Text)
    ensures WhySkip(item, names, prefixes, t).None?
       <==> (Acceptable(item, t) && t.casefold(ItemName(item)) !in names
             && (ItemPrefix(item, t).Some? ==> ItemPrefix(item, t).value !in prefixes))
  {
  }

  lemma BesideIsNotSkipped(first: Item, second: Item, t: Text)
    requires Acceptable(first, t) && Acceptable(second, t) && first.cpePrefix == second.cpePrefix && Wobbles(second, t)
    requires t.casefold(ItemName(first)) != t.casefold(ItemName(second))
    ensures var table := [VendorFor(first, t)];
            WhySkip(second, NamesOf(table, t), PrefixesOf(table, t), t) == None
  {
    var v, p := VendorFor(first, t), ItemPrefix(second, t);
    assert v.cpePrefix == p;
    WobblesIff(second, t);
    TakenByOne(v, t);
    NotSkippedIff(second, {t.casefold(v.name)}, {Normal(p.value, t)}, t);
  }

  /** The first vendor's prefix does not stand in the way of the second, because it matches in another form. */
  lemma ImportBeside(first: Item, second: Item, t: Text)
    requires Acceptable(first, t) && Acceptable(second, t) && first.cpePrefix == second.cpePrefix && Wobbles(second, t)
    requires t.casefold(ItemName(first)) != t.casefold(ItemName(second))
    ensures ImportTable([VendorFor(first, t)], [second], None, t) == [VendorFor(first, t), VendorFor(second, t)]
  {
    BesideIsNotSkipped(first, second, t);
    ImportOne([VendorFor(first, t)], second, t);
  }

  /** Two imports, one item each with a prefix that wobbles: two vendors with the very same stored prefix. */
  lemma ImportedTwice(raw: string, a: string, b: string, t: Text)
    requires Wobbles(Item(None, Some(raw)), t)
    requires Importable(a) && Importable(b) && t.casefold(a) != t.casefold(b)
    ensures var p := CpePrefix(raw, t.unquote);
            p.Some? && Imports([], TwoImports(raw, a, b), None, t) == [Vendor(a, p, false), Vendor(b, p, false)]
  {
    var x, y := Item(Some(a), Some(raw)), Item(Some(b), Some(raw));
    ImportIntoEmpty(x, t);
    ImportBeside(x, y, t);
    ImportsOfTwo([], [x], [y], None, t);
  }

  lemma NotKept(raw: string, table: seq<Vendor>, batches: seq<seq<Item>>, maxVendors: Option<nat>, t: Text)
    requires DistinctStored(table) && Steady(batches, raw, t)
    requires !DistinctStored(Imports(table, batches, maxVendors, t))
    ensures !KeepsPrefixesDistinct(raw, t)
  {
  }

  lemma PrefixesClash(raw: string, a: string, b: string, t: Text)
    requires Wobbles(Item(None, Some(raw)), t)
    requires Importable(a) && Importable(b) && t.casefold(a) != t.casefold(b)
    ensures !KeepsPrefixesDistinct(raw, t)
  {
    ImportedTwice(raw, a, b, t);
    WobblesIff(Item(None, Some(raw)), t);
    TwiceIsNotDistinct(Imports([], TwoImports(raw, a, b), None, t));
    TwoAreSteady(raw, a, b, t);
    NotKept(raw, [], TwoImports(raw, a, b), None, t);
  }

  lemma TwoAreSteady(raw: string, a: string, b: string, t: Text)
    ensures Steady(TwoImports(raw, a, b), raw, t)
  {
  }

  lemma TwiceIsNotDistinct(table: seq<Vendor>)
    requires |table| == 2 && Present(table[0].cpePrefix) && table[0].cpePrefix == table[1].cpePrefix
    ensures !DistinctStored(table)
  {
  }

  /**
   Stored prefixes stay distinct through imports that use the prefix `raw` if and only if what it parses to does not
   end in white space that normalising would take off. (There must be two different names to import it under.)
   */
  lemma PrefixesStayDistinctIff(raw: string, a: string, b: string, t: Text)
    requires Importable(a) && Importable(b) && t.casefold(a) != t.casefold(b)
    ensures KeepsPrefixesDistinct(raw, t) <==> !Wobbles(Item(None, Some(raw)), t)
  {
    if Wobbles(Item(None, Some(raw)), t) {
      PrefixesClash(raw, a, b, t);
    } else {
      forall table, batches, maxVendors | DistinctStored(table) && Steady(batches, raw, t)
        ensures DistinctStored(Imports(table, batches, maxVendors, t))
      {
        ImportsKeepStoredDistinct(table, batches, maxVendors, raw, t);
      }
    }
  }

  /** Such prefixes exist: RAW is one. */
  lemma RawWobbles(t: Text)
    ensures Wobbles(Item(None, Some(RAW)), t) && CpePrefix(RAW, t.unquote) == Some("cpe:2.3:a:v:p ")
  {
    SpaceIsLost(t.unquote);
  }

  // The same import again

  /** The item was left out only because of a vendor created with it: its name is free, but that vendor has its prefix,
      in a form in which it will not match. */
  predicate HeldBack(item: Item, table: seq<Vendor>, created: seq<Vendor>, t: Text) {
    && ItemName(item) != "" && t.casefold(ItemName(item)) !in NamesOf(table + created, t)
    && Wobbles(item, t)
    && exists v :: v in created && v.cpePrefix == ItemPrefix(item, t)
  }

  /** Normalising what was normalised changes nothing. */
  lemma NormalIsStable(f: Fields, t: Text)
    requires Printable(f)
    ensures Normal(Normal(Print(f), t), t) == Normal(Print(f), t)
  {
    var g := f.(product := StripRight(f.product));
    StripRightShortens(f.product);
    PrintedAgain(f, t.unquote);
    if CpePrefix(Print(f), t.unquote).Some? {
      TrimmedIsLower(f.product);
      StripRightStays(f.product);
      PrintedAgain(g, t.unquote);
    }
  }

  lemma {:induction false} StripRightStays(s: string)
    ensures StripRight(StripRight(s)) == StripRight(s)
  {
    if s != "" && IsSpace(s[|s| - 1]) {
      StripRightStays(s[..|s| - 1]);
    }
  }

  /** So no created vendor matches a prefix that wobbles. */
  lemma WobblingMatchesNone(items: seq<Item>, names: set<string>, prefixes: set<string>, t: Text, item: Item)
    requires Wobbles(item, t)
    ensures ItemPrefix(item, t).Some?
    ensures ItemPrefix(item, t).value !in PrefixesOf(Sift(items, names, prefixes, t).created, t)
  {
    WobblesIff(item, t);
    var created := Sift(items, names, prefixes, t).created;
    forall v | v in created && Present(v.cpePrefix)
      ensures Normal(v.cpePrefix.value, t) != ItemPrefix(item, t).value
    {
      CreatedComeFrom(items, names, prefixes, t, v);
      var other :| other in items && v == VendorFor(other, t);
      ParsedFields(other.cpePrefix.value, t.unquote);
      NormalIsStable(CpeFields(other.cpePrefix.value, t.unquote).value, t);
    }
  }

  /** What a second pass would create was skipped in the first one for a prefix created before it. */
  lemma {:induction false} SkippedForCreated(items: seq<Item>, names: set<string>, prefixes: set<string>, t: Text,
                                             item: Item)
    requires item in items && Acceptable(item, t)
    ensures var created := Sift(items, names, prefixes, t).created;
            || VendorFor(item, t) in created
            || t.casefold(ItemName(item)) in names
            || (exists v :: v in created && t.casefold(v.name) == t.casefold(ItemName(item)))
            || (ItemPrefix(item, t).Some? && ItemPrefix(item, t).value in prefixes)
            || (ItemPrefix(item, t).Some? && exists v :: v in created && v.cpePrefix == ItemPrefix(item, t))
    decreases |items|
  {
    var rest := items[1..];
    if item != items[0] {
      assert item in rest;
      if WhySkip(items[0], names, prefixes, t).Some? {
        SkippedForCreated(rest, names, prefixes, t, item);
      } else {
        var v := VendorFor(items[0], t);
        assert v in Sift(items, names, prefixes, t).created;
        SkippedForCreated(rest, names + {t.casefold(v.name)}, prefixes + Taken(v.cpePrefix), t, item);
      }
    }
  }

  /** Once names and prefixes are taken, nothing is created exactly when every item is skipped. */
  lemma {:induction false} CreatesNothingIff(items: seq<Item>, names: set<string>, prefixes: set<string>, t: Text)
    ensures Sift(items, names, prefixes, t).created == []
       <==> forall item :: item in items ==> WhySkip(item, names, prefixes, t).Some?
    decreases |items|
  {
    if items != [] {
      assert items == [items[0]] + items[1..];
      CreatesNothingIff(items[1..], names, prefixes, t);
    }
  }

  lemma NamesAndPrefixesOfBoth(table: seq<Vendor>, created: seq<Vendor>, t: Text)
    ensures NamesOf(table + created, t) == NamesOf(table, t) + NamesOf(created, t)
    ensures PrefixesOf(table + created, t) == PrefixesOf(table, t) + PrefixesOf(created, t)
  {
  }

  lemma UnskippedIsHeldBack(table: seq<Vendor>, items: seq<Item>, created: seq<Vendor>, t: Text, item: Item)
    requires item in items && created == Sift(items, NamesOf(table, t), PrefixesOf(table, t), t).created
    requires WhySkip(item, NamesOf(table + created, t), PrefixesOf(table + created, t), t).None?
    ensures HeldBack(item, table, created, t)
  {
    var p := ItemPrefix(item, t);
    NotSkippedIff(item, NamesOf(table + created, t), PrefixesOf(table + created, t), t);
    NamesAndPrefixesOfBoth(table, created, t);
    SkippedForCreated(items, NamesOf(table, t), PrefixesOf(table, t), t, item);
    var v :| v in created && v.cpePrefix == p;
    assert p.Some?;
    WobblesIff(item, t);
    assert Normal(p.value, t) in PrefixesOf(created, t);
  }

  lemma HeldBackIsUnskipped(table: seq<Vendor>, items: seq<Item>, created: seq<Vendor>, t: Text, item: Item)
    requires item in items && created == Sift(items, NamesOf(table, t), PrefixesOf(table, t), t).created
    requires HeldBack(item, table, created, t)
    ensures WhySkip(item, NamesOf(table + created, t), PrefixesOf(table + created, t), t).None?
  {
    var names, prefixes := NamesOf(table, t), PrefixesOf(table, t);
    WobblingMatchesNone(items, names, prefixes, t, item);
    SiftNeverClashes(items, names, prefixes, t);
    NamesAndPrefixesOfBoth(table, created, t);
    NotSkippedIff(item, NamesOf(table + created, t), PrefixesOf(table + created, t), t);
  }

  /**
   Importing the same rows again creates nothing, under any limit, if and only if the first import has held none of
   them back.
   */
  lemma ImportingAgainCreatesNothingIff(table: seq<Vendor>, items: seq<Item>, maxVendors: Option<nat>,
                                        later: Option<nat>, t: Text)
    requires ImportOutcome(table, items, maxVendors, t).Imported?
    ensures var created := Sift(items, NamesOf(table, t), PrefixesOf(table, t), t).created;
            var after := ImportTable(table, items, maxVendors, t);
            var again := ImportOutcome(after, items, later, t);
            && after == table + created
            && ((forall item :: item in items ==> !HeldBack(item, table, created, t))
                <==> (again.Imported? && again.names == []))
            && (again.Imported? && again.names == [] ==>
                  |again.skipped| == |items| && ImportTable(after, items, later, t) == after)
  {
    var created := Sift(items, NamesOf(table, t), PrefixesOf(table, t), t).created;
    var after := table + created;
    CreatesNothingIff(items, NamesOf(after, t), PrefixesOf(after, t), t);
    forall item | item in items
      ensures WhySkip(item, NamesOf(after, t), PrefixesOf(after, t), t).None? <==> HeldBack(item, table, created, t)
    {
      if HeldBack(item, table, created, t) {
        HeldBackIsUnskipped(table, items, created, t, item);
      } else if WhySkip(item, NamesOf(after, t), PrefixesOf(after, t), t).None? {
        UnskippedIsHeldBack(table, items, created, t, item);
      }
    }
    SiftNeverClashes(items, NamesOf(after, t), PrefixesOf(after, t), t);
    NamesInCounts(Sift(items, NamesOf(after, t), PrefixesOf(after, t), t).created);
  }

  /** Two rows with a prefix that wobbles, such as RAW: the first import creates one of them, the second the other. */
  lemma SecondImportCreates(raw: string, a: string, b: string, t: Text)
    requires Wobbles(Item(None, Some(raw)), t)
    requires Importable(a) && Importable(b) && t.casefold(a) != t.casefold(b)
    ensures var items, p := [Item(Some(a), Some(raw)), Item(Some(b), Some(raw))], CpePrefix(raw, t.unquote);
            && p.Some?
            && ImportTable([], items, None, t) == [Vendor(a, p, false)]
            && ImportTable([Vendor(a, p, false)], items, None, t) == [Vendor(a, p, false), Vendor(b, p, false)]
  {
    var x, y := Item(Some(a), Some(raw)), Item(Some(b), Some(raw));
    var p, first := CpePrefix(raw, t.unquote), VendorFor(x, t);
    WobblesIff(x, t);
    WobblesIff(y, t);
    assert [x, y][1..] == [y];
    assert NamesOf([], t) == {} && PrefixesOf([], t) == {};
    assert {} + {t.casefold(a)} == {t.casefold(a)} && {} + {p.value} == {p.value};
    SiftOne(y, {t.casefold(a)}, {p.value}, t);
    TakenByOne(first, t);
    SiftOne(y, {t.casefold(a)}, {Normal(p.value, t)}, t);
  }

  // ---------------------------------------------------------------------------
  // The preview predicts the import
  // ---------------------------------------------------------------------------

  function ItemFor(c: Candidate): Item {
    Item(Some(c.name), c.cpePrefix)
  }

  /** The rows a preview marks new, in order, as the client sends them back. */
  function NewItems(cs: seq<Candidate>, marks: seq<Status>): (items: seq<Item>)
    requires |cs| == |marks|
  {
    if cs == [] then []
    else NewItems(cs[..|cs| - 1], marks[..|cs| - 1])
         + (if marks[|cs| - 1] == New then [ItemFor(cs[|cs| - 1])] else [])
  }

  /** A candidate the import reads exactly as the preview showed it. */
  predicate Faithful(c: Candidate, t: Text) {
    && c.name != "" && Strip(c.name) == c.name && |c.name| <= 200
    && (c.cpePrefix.Some? ==> c.cpePrefix.value != "" && CpePrefix(c.cpePrefix.value, t.unquote) == c.cpePrefix)
  }

  lemma {:induction false} NewItemsComeFrom(cs: seq<Candidate>, marks: seq<Status>)
    returns (from: seq<nat>)
    requires |cs| == |marks|
    ensures var items := NewItems(cs, marks);
            && |from| == |items|
            && (forall k :: 0 <= k < |from| ==> from[k] < |cs| && marks[from[k]] == New
                                                && items[k] == ItemFor(cs[from[k]]))
            && (forall k, l :: 0 <= k < l < |from| ==> from[k] < from[l])
  {
    if cs == [] {
      from := [];
    } else {
      var n := |cs| - 1;
      var earlier := NewItems(cs[..n], marks[..n]);
      var before := NewItemsComeFrom(cs[..n], marks[..n]);
      if marks[n] == New {
        assert NewItems(cs, marks) == earlier + [ItemFor(cs[n])];
        from := before + [n];
      } else {
        assert NewItems(cs, marks) == earlier;
        from := before;
      }
      forall k | 0 <= k < |before| ensures marks[before[k]] == New && earlier[k] == ItemFor(cs[before[k]]) {
        assert cs[..n][before[k]] == cs[before[k]];
      }
    }
  }

  /** A preview, all of whose new rows fit into one import and into the plan. */
  predicate Previewed(table: seq<Vendor>, cs: seq<Candidate>, marks: seq<Status>, maxVendors: Option<nat>, t: Text) {
    && |marks| == |cs|
    && (forall i :: 0 <= i < |cs| ==> marks[i] == MarkOf(cs, i, NamesOf(table, t), PrefixesOf(table, t), t))
    && |NewItems(cs, marks)| <= MAX_IMPORT && HasRoom(table, |NewItems(cs, marks)|, maxVendors)
  }

  predicate NewRowsFaithful(cs: seq<Candidate>, marks: seq<Status>, t: Text)
    requires |marks| == |cs|
  {
    forall i :: 0 <= i < |cs| && marks[i] == New ==> Faithful(cs[i], t)
  }

  /** The import creates one vendor per item, with the name and the prefix that the item shows, and skips nothing. */
  predicate ImportsAsShown(table: seq<Vendor>, items: seq<Item>, maxVendors: Option<nat>, t: Text) {
    var after := ImportTable(table, items, maxVendors, t);
    && ImportOutcome(table, items, maxVendors, t) == Imported(NamesIn(VendorsFor(items, t)), [])
    && after == table + VendorsFor(items, t)
    && forall i :: 0 <= i < |items| ==>
         Some(after[|table| + i].name) == items[i].name && after[|table| + i].cpePrefix == items[i].cpePrefix
  }

  /**
   Import what the preview called new, on the same vendors, with room in the plan: every row is created as shown and
   none skipped if and only if the names are trimmed and the prefixes in normal form.
   */
  lemma PreviewPredictsImport(
      table: seq<Vendor>, cs: seq<Candidate>, marks: seq<Status>, maxVendors: Option<nat>, t: Text)
    requires DistinctPrefixes(cs) && Previewed(table, cs, marks, maxVendors, t)
    ensures ImportsAsShown(table, NewItems(cs, marks), maxVendors, t) <==> NewRowsFaithful(cs, marks, t)
  {
    if NewRowsFaithful(cs, marks, t) {
      FaithfulRowsAreImported(table, cs, marks, maxVendors, t);
    }
    if ImportsAsShown(table, NewItems(cs, marks), maxVendors, t) {
      forall i | 0 <= i < |cs| && marks[i] == New ensures Faithful(cs[i], t) {
        ShownIsFaithful(table, cs, marks, maxVendors, t, i);
      }
    }
  }

  lemma {:induction false} NewRowIsItem(cs: seq<Candidate>, marks: seq<Status>, i: nat)
    requires |cs| == |marks| && i < |cs| && marks[i] == New
    ensures ItemFor(cs[i]) in NewItems(cs, marks)
  {
    if i < |cs| - 1 {
      NewRowIsItem(cs[..|cs| - 1], marks[..|cs| - 1], i);
    }
  }

  lemma {:induction false} StripLeftShortens(s: string)
    ensures |StripLeft(s)| <= |s| && (|StripLeft(s)| == |s| ==> StripLeft(s) == s)
  {
    if s != "" && IsSpace(s[0]) {
      StripLeftShortens(s[1..]);
    }
  }

  lemma ImportableIff(name: string)
    ensures Importable(name) <==> name != "" && Strip(name) == name && |name| <= 200
  {
    StripLeftShortens(name);
    StripRightShortens(StripLeft(name));
  }

  lemma ShownIsFaithful(
      table: seq<Vendor>, cs: seq<Candidate>, marks: seq<Status>, maxVendors: Option<nat>, t: Text, i: nat)
    requires |marks| == |cs| && i < |cs| && marks[i] == New
    requires ImportsAsShown(table, NewItems(cs, marks), maxVendors, t)
    ensures Faithful(cs[i], t)
  {
    var items := NewItems(cs, marks);
    NewRowIsItem(cs, marks, i);
    var k :| 0 <= k < |items| && items[k] == ItemFor(cs[i]);
    SkipsNothingIff(items, NamesOf(table, t), PrefixesOf(table, t), t);
    assert ImportTable(table, items, maxVendors, t)[|table| + k] == VendorFor(items[k], t);
    ImportableIff(cs[i].name);
  }

  lemma FaithfulRowsAreImported(
      table: seq<Vendor>, cs: seq<Candidate>, marks: seq<Status>, maxVendors: Option<nat>, t: Text)
    requires DistinctPrefixes(cs) && Previewed(table, cs, marks, maxVendors, t) && NewRowsFaithful(cs, marks, t)
    ensures ImportsAsShown(table, NewItems(cs, marks), maxVendors, t)
  {
    var items := NewItems(cs, marks);
    var names, prefixes := NamesOf(table, t), PrefixesOf(table, t);
    var from := NewItemsComeFrom(cs, marks);
    var vs := VendorsFor(items, t);
    forall k | 0 <= k < |items|
      ensures Acceptable(items[k], t) && vs[k] == Vendor(cs[from[k]].name, cs[from[k]].cpePrefix, false)
      ensures !Known(cs[from[k]], names, prefixes, t)
    {
      FaithfulIsRead(cs[from[k]], t);
    }
    NewRowsClashFree(vs, from, cs, names, prefixes, t);
    SkipsNothingIff(items, names, prefixes, t);
  }

  lemma FaithfulIsRead(c: Candidate, t: Text)
    requires Faithful(c, t)
    ensures Acceptable(ItemFor(c), t)
    ensures VendorFor(ItemFor(c), t) == Vendor(c.name, c.cpePrefix, false)
  {
  }

  lemma NewRowsClashFree(vs: seq<Vendor>, from: seq<nat>, cs: seq<Candidate>,
                         names: set<string>, prefixes: set<string>, t: Text)
    requires DistinctPrefixes(cs) && |from| == |vs|
    requires forall k :: 0 <= k < |from| ==>
               from[k] < |cs| && MarkOf(cs, from[k], names, prefixes, t) == New && Faithful(cs[from[k]], t)
    requires forall k, l :: 0 <= k < l < |from| ==> from[k] < from[l]
    requires forall k :: 0 <= k < |vs| ==> vs[k] == Vendor(cs[from[k]].name, cs[from[k]].cpePrefix, false)
    ensures ClashFree(vs, names, prefixes, t)
  {
  }

  /** The whole flow, from components to vendors: nothing has to be assumed about the candidates. */
  lemma SbomImportsAsPreviewed(
      table: seq<Vendor>, components: seq<Component>, marks: seq<Status>, maxVendors: Option<nat>, t: Text)
    ensures SumCounts(Candidates(components, t)) == |components|
    ensures var cs := Candidates(components, t);
            Previewed(table, cs, marks, maxVendors, t) ==>
              (ImportsAsShown(table, NewItems(cs, marks), maxVendors, t) <==> NewRowsFaithful(cs, marks, t))
  {
    CandidatesPartition(components, t);
    if Previewed(table, Candidates(components, t), marks, maxVendors, t) {
      PreviewPredictsImport(table, Candidates(components, t), marks, maxVendors, t);
    }
  }
}
