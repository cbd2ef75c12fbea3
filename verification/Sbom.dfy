/**
 SBOM import: components are grouped into candidates (core/sbom.py, build_candidates), previewed against an
 organisation's vendors, and the rows a user keeps are imported (app/services/sbom_service.py). Case folding,
 percent-decoding and product labels are parameters.
 */
module Sbom {
  import opened Wrappers
  import opened Cpe

  datatype Text = Text(unquote: string -> string, casefold: string -> string, humanize: (string, string) -> string)

  datatype Component = Component(name: string, version: Option<string>, cpe: Option<string>, supplier: Option<string>)

  datatype Candidate = Candidate(
    name: string, cpePrefix: Option<string>, versions: seq<string>, componentCount: nat, supplier: Option<string>)

  /** What components are grouped by: the CPE product, or else the folded name. */
  datatype Key = ByCpe(prefix: string) | ByName(folded: string)

  /** An absent or empty text counts as missing. */
  predicate Present(o: Option<string>) {
    o.Some? && o.value != ""
  }

  function Cut(s: string, n: nat): string {
    if |s| <= n then s else s[..n]
  }

  function FieldsOf(c: Component, t: Text): Option<Fields> {
    if c.cpe.None? then None else CpeFields(c.cpe.value, t.unquote)
  }

  function KeyOf(c: Component, t: Text): Key {
    match FieldsOf(c, t)
    case Some(f) => ByCpe(Print(f))
    case None => ByName(t.casefold(c.name))
  }

  /** How a group is called after the component that opens it. */
  function Label(c: Component, t: Text): string {
    match FieldsOf(c, t)
    case Some(f) => Cut(t.humanize(f.vendor, f.product), 200)
    case None => Cut(c.name, 200)
  }

  function Empty(c: Component, t: Text): Candidate {
    match FieldsOf(c, t)
    case Some(f) => Candidate(Label(c, t), Some(Print(f)), [], 0, None)
    case None => Candidate(Label(c, t), None, [], 0, None)
  }

  function Add(g: Candidate, c: Component): Candidate {
    g.(componentCount := g.componentCount + 1,
       versions := if Present(c.version) && c.version.value !in g.versions then g.versions + [c.version.value]
                   else g.versions,
       supplier := if g.supplier.None? && Present(c.supplier) then c.supplier else g.supplier)
  }

  // ---------------------------------------------------------------------------
  // Grouping
  // ---------------------------------------------------------------------------

  /** An insertion-ordered dictionary of groups. */
  datatype Groups = Groups(order: seq<Key>, at: map<Key, Candidate>)
  {
    ghost predicate Valid() {
      && (forall k :: k in order <==> k in at)
      && (forall i, j :: 0 <= i < j < |order| ==> order[i] != order[j])
    }

    function Values(): (vs: seq<Candidate>)
      requires forall k :: k in order ==> k in at
      ensures |vs| == |order|
    {
      seq(|order|, i requires 0 <= i < |order| => at[order[i]])
    }
  }

  function Absorb(gs: Groups, c: Component, t: Text): Groups {
    var k := KeyOf(c, t);
    if k in gs.at then gs.(at := gs.at[k := Add(gs.at[k], c)])
    else Groups(gs.order + [k], gs.at[k := Add(Empty(c, t), c)])
  }

  function Grouped(cs: seq<Component>, t: Text): (gs: Groups)
    ensures gs.Valid()
  {
    if cs == [] then Groups([], map[]) else Absorb(Grouped(cs[..|cs| - 1], t), cs[|cs| - 1], t)
  }

  function CountOf(k: Key, cs: seq<Component>, t: Text): nat {
    if cs == [] then 0
    else CountOf(k, cs[..|cs| - 1], t) + (if KeyOf(cs[|cs| - 1], t) == k then 1 else 0)
  }

  function FirstSupplier(k: Key, cs: seq<Component>, t: Text): Option<string> {
    if cs == [] then None else
    var earlier := FirstSupplier(k, cs[..|cs| - 1], t);
    var c := cs[|cs| - 1];
    if earlier.None? && KeyOf(c, t) == k && Present(c.supplier) then c.supplier else earlier
  }

  function FirstWith(k: Key, cs: seq<Component>, t: Text): Option<Component> {
    if cs == [] then None else
    var earlier := FirstWith(k, cs[..|cs| - 1], t);
    if earlier.None? && KeyOf(cs[|cs| - 1], t) == k then Some(cs[|cs| - 1]) else earlier
  }

  predicate Brings(c: Component, v: string, k: Key, t: Text) {
    KeyOf(c, t) == k && c.version == Some(v) && v != ""
  }

  /** Where the version first comes up under the key; `|cs|` if it does not. */
  function FirstAt(v: string, k: Key, cs: seq<Component>, t: Text): (at: nat)
    ensures at <= |cs|
  {
    if cs == [] then 0 else
    var n := |cs| - 1;
    var earlier := FirstAt(v, k, cs[..n], t);
    if earlier < n || Brings(cs[n], v, k, t) then earlier else |cs|
  }

  /** It is a place that brings the version, and no place before it does. */
  lemma {:induction false} FirstAtIsFirst(v: string, k: Key, cs: seq<Component>, t: Text, i: nat)
    requires i < |cs|
    ensures FirstAt(v, k, cs, t) == i ==> Brings(cs[i], v, k, t)
    ensures Brings(cs[i], v, k, t) ==> FirstAt(v, k, cs, t) <= i
  {
    var n := |cs| - 1;
    if i < n {
      FirstAtIsFirst(v, k, cs[..n], t, i);
      assert cs[..n][i] == cs[i];
    }
  }

  /** The versions under the key, each once, in the order in which they come up. */
  ghost predicate ListsVersions(versions: seq<string>, k: Key, cs: seq<Component>, t: Text) {
    && (forall v :: v in versions <==> FirstAt(v, k, cs, t) < |cs|)
    && (forall i, j :: 0 <= i < j < |versions| ==> FirstAt(versions[i], k, cs, t) < FirstAt(versions[j], k, cs, t))
  }

  /** A group tells exactly what the components of its key say together. */
  ghost predicate Describes(g: Candidate, k: Key, cs: seq<Component>, t: Text) {
    && FirstWith(k, cs, t).Some? && g.name == Label(FirstWith(k, cs, t).value, t)
    && g.componentCount == CountOf(k, cs, t) > 0
    && g.cpePrefix == (match k case ByCpe(p) => Some(p) case ByName(_) => None)
    && g.supplier == FirstSupplier(k, cs, t)
    && ListsVersions(g.versions, k, cs, t)
  }

  /** No component has this key. */
  ghost predicate Unused(k: Key, cs: seq<Component>, t: Text) {
    && FirstWith(k, cs, t) == None && CountOf(k, cs, t) == 0 && FirstSupplier(k, cs, t) == None
    && ListsVersions([], k, cs, t)
  }

  lemma FirstAtAppends(v: string, k: Key, all: seq<Component>, t: Text)
    requires all != []
    ensures var n := |all| - 1;
            FirstAt(v, k, all, t)
              == if FirstAt(v, k, all[..n], t) < n then FirstAt(v, k, all[..n], t)
                 else if Brings(all[n], v, k, t) then n else |all|
  {
  }

  /** A component that brings a version not listed yet adds it at the end; any other leaves the list right. */
  lemma MoreVersions(versions: seq<string>, k: Key, all: seq<Component>, t: Text)
    requires all != [] && ListsVersions(versions, k, all[..|all| - 1], t)
    ensures var c := all[|all| - 1];
            ListsVersions(if KeyOf(c, t) == k && Present(c.version) && c.version.value !in versions
                          then versions + [c.version.value] else versions, k, all, t)
  {
    var n, c := |all| - 1, all[|all| - 1];
    forall v
      ensures FirstAt(v, k, all, t) == if FirstAt(v, k, all[..n], t) < n then FirstAt(v, k, all[..n], t)
                                       else if Brings(c, v, k, t) then n else |all|
    {
      FirstAtAppends(v, k, all, t);
    }
  }

  /** One more component of key `k` is exactly what `Add` adds to that group. */
  lemma AddDescribes(g: Candidate, k: Key, all: seq<Component>, t: Text)
    requires all != [] && KeyOf(all[|all| - 1], t) == k
    requires var cs, c := all[..|all| - 1], all[|all| - 1];
             Describes(g, k, cs, t) || (Unused(k, cs, t) && g == Empty(c, t))
    ensures Describes(Add(g, all[|all| - 1]), k, all, t)
  {
    MoreVersions(g.versions, k, all, t);
  }

  lemma OtherKeysUntouched(g: Option<Candidate>, k: Key, all: seq<Component>, t: Text)
    requires all != [] && KeyOf(all[|all| - 1], t) != k
    ensures var cs := all[..|all| - 1];
            && (Unused(k, cs, t) ==> Unused(k, all, t))
            && (g.Some? && Describes(g.value, k, cs, t) ==> Describes(g.value, k, all, t))
  {
    var cs := all[..|all| - 1];
    if Unused(k, cs, t) {
      MoreVersions([], k, all, t);
    }
    if g.Some? && Describes(g.value, k, cs, t) {
      MoreVersions(g.value.versions, k, all, t);
    }
  }

  lemma {:induction false} GroupDescribes(cs: seq<Component>, t: Text, k: Key)
    ensures var gs := Grouped(cs, t);
            if k in gs.at then Describes(gs.at[k], k, cs, t) else Unused(k, cs, t)
  {
    if cs == [] {
    } else {
      var gs, c := Grouped(cs[..|cs| - 1], t), cs[|cs| - 1];
      GroupDescribes(cs[..|cs| - 1], t, k);
      assert Grouped(cs, t) == Absorb(gs, c, t);
      var g := if k in gs.at then Some(gs.at[k]) else None;
      if KeyOf(c, t) == k {
        AddDescribes(if g.Some? then g.value else Empty(c, t), k, cs, t);
      } else {
        OtherKeysUntouched(g, k, cs, t);
      }
    }
  }

  // ---------------------------------------------------------------------------
  // What a group tells, said of the components themselves
  // ---------------------------------------------------------------------------

  /** The prefix of a component that has a CPE which names a product. */
  function PrefixOf(c: Component, t: Text): Option<string> {
    if c.cpe.None? then None else CpePrefix(c.cpe.value, t.unquote)
  }

  /** Two components are grouped together when they have the same prefix, or none and the same folded name. */
  lemma KeysTell(c: Component, d: Component, t: Text)
    ensures KeyOf(c, t) == KeyOf(d, t)
       <==> PrefixOf(c, t) == PrefixOf(d, t) && (PrefixOf(c, t) == None ==> t.casefold(c.name) == t.casefold(d.name))
    ensures match KeyOf(c, t) case ByCpe(p) => PrefixOf(c, t) == Some(p) case ByName(_) => PrefixOf(c, t) == None
  {
  }

  /** A label is the first 200 characters of the humanised product, or of the name if there is no product. */
  lemma LabelTells(c: Component, t: Text)
    ensures var f := if c.cpe.None? then None else CpeFields(c.cpe.value, t.unquote);
            var full := if f.Some? then t.humanize(f.value.vendor, f.value.product) else c.name;
            Label(c, t) <= full && |Label(c, t)| == if |full| < 200 then |full| else 200
  {
  }

  /** The label comes from the first component of the key. */
  lemma {:induction false} FirstWithTells(k: Key, cs: seq<Component>, t: Text, i: nat)
    requires i <= |cs| && forall j :: 0 <= j < i ==> KeyOf(cs[j], t) != k
    ensures i == |cs| ==> FirstWith(k, cs, t) == None
    ensures i < |cs| && KeyOf(cs[i], t) == k ==> FirstWith(k, cs, t) == Some(cs[i])
  {
    if cs != [] {
      var init := cs[..|cs| - 1];
      assert forall j :: 0 <= j < |init| ==> init[j] == cs[j];
      FirstWithTells(k, init, t, if i < |cs| then i else i - 1);
    }
  }

  /** The supplier is the first one that a component of the key names. */
  lemma {:induction false} FirstSupplierTells(k: Key, cs: seq<Component>, t: Text, i: nat)
    requires i <= |cs| && forall j :: 0 <= j < i ==> KeyOf(cs[j], t) != k || cs[j].supplier in {None, Some("")}
    ensures i == |cs| ==> FirstSupplier(k, cs, t) == None
    ensures i < |cs| && KeyOf(cs[i], t) == k && cs[i].supplier !in {None, Some("")} ==>
      FirstSupplier(k, cs, t) == cs[i].supplier
  {
    if cs != [] {
      var n := |cs| - 1;
      assert forall j :: 0 <= j < n ==> cs[..n][j] == cs[j];
      FirstSupplierTells(k, cs[..n], t, if i <= n then i else n);
    }
  }

  function Places(k: Key, cs: seq<Component>, t: Text): set<nat> {
    set i: nat | i < |cs| && KeyOf(cs[i], t) == k
  }

  /** The count is the number of components of the key. */
  lemma {:induction false} CountTells(k: Key, cs: seq<Component>, t: Text)
    ensures CountOf(k, cs, t) == |Places(k, cs, t)|
  {
    if cs != [] {
      CountTells(k, cs[..|cs| - 1], t);
      OneMorePlace(k, cs, t);
    }
  }

  lemma OneMorePlace(k: Key, cs: seq<Component>, t: Text)
    requires cs != []
    ensures var n := |cs| - 1;
            Places(k, cs, t) == Places(k, cs[..n], t) + (if KeyOf(cs[n], t) == k then {n} else {})
  {
    var n := |cs| - 1;
    forall i: nat
      ensures i in Places(k, cs, t) <==> i in Places(k, cs[..n], t) || (i == n && KeyOf(cs[n], t) == k)
    {
      if i < n {
        assert cs[..n][i] == cs[i];
      }
    }
  }

  /** A component opens a group at the end, or joins one. */
  lemma OrderGrows(cs: seq<Component>, t: Text)
    requires cs != []
    ensures var before, k := Grouped(cs[..|cs| - 1], t).order, KeyOf(cs[|cs| - 1], t);
            Grouped(cs, t).order == before + (if k in before then [] else [k])
  {
  }

  /** The groups are opened in the order of their first components: before a component of a later group comes one of
      each earlier group. */
  lemma {:induction false} GroupsInOrder(cs: seq<Component>, t: Text, i: nat, j: nat, m: nat) returns (l: nat)
    requires i < j < |Grouped(cs, t).order| && m < |cs| && KeyOf(cs[m], t) == Grouped(cs, t).order[j]
    ensures l < m && KeyOf(cs[l], t) == Grouped(cs, t).order[i]
  {
    var init := cs[..|cs| - 1];
    OrderGrows(cs, t);
    if m < |init| {
      KeyIsGrouped(init, m, t);
      var n :| 0 <= n < |Grouped(init, t).order| && Grouped(init, t).order[n] == KeyOf(init[m], t);
      assert Grouped(cs, t).order[n] == Grouped(cs, t).order[j];
      l := GroupsInOrder(init, t, i, j, m);
    } else {
      l := KeyHasComponent(init, t, i);
    }
  }

  /** Every group was opened by a component. */
  lemma {:induction false} KeyHasComponent(cs: seq<Component>, t: Text, i: nat) returns (l: nat)
    requires i < |Grouped(cs, t).order|
    ensures l < |cs| && KeyOf(cs[l], t) == Grouped(cs, t).order[i]
  {
    var init := cs[..|cs| - 1];
    OrderGrows(cs, t);
    if i < |Grouped(init, t).order| {
      l := KeyHasComponent(init, t, i);
      assert cs[l] == init[l] && Grouped(cs, t).order[i] == Grouped(init, t).order[i];
    } else {
      l := |cs| - 1;
    }
  }

  function SumCounts(gs: seq<Candidate>): nat {
    if gs == [] then 0 else gs[0].componentCount + SumCounts(gs[1..])
  }

  function SumAt(order: seq<Key>, at: map<Key, Candidate>): nat
    requires forall k :: k in order ==> k in at
  {
    if order == [] then 0 else SumAt(order[..|order| - 1], at) + at[order[|order| - 1]].componentCount
  }

  lemma {:induction false} SumAtSets(order: seq<Key>, at: map<Key, Candidate>, k: Key, g: Candidate)
    requires forall key :: key in order ==> key in at
    requires forall i, j :: 0 <= i < j < |order| ==> order[i] != order[j]
    requires k in at
    ensures SumAt(order, at[k := g])
         == SumAt(order, at) + (if k in order then g.componentCount - at[k].componentCount else 0)
  {
    if order == [] {
    } else {
      SumAtSets(order[..|order| - 1], at, k, g);
    }
  }

  lemma {:induction false} SumAtAddsKey(order: seq<Key>, at: map<Key, Candidate>, k: Key, g: Candidate)
    requires forall key :: key in order ==> key in at
    requires k !in order
    ensures SumAt(order, at[k := g]) == SumAt(order, at)
  {
    if order == [] {
    } else {
      SumAtAddsKey(order[..|order| - 1], at, k, g);
    }
  }

  /** No component is lost or counted twice. */
  lemma {:induction false} GroupsConserve(cs: seq<Component>, t: Text)
    ensures SumAt(Grouped(cs, t).order, Grouped(cs, t).at) == |cs|
  {
    if cs == [] {
    } else {
      var gs, c := Grouped(cs[..|cs| - 1], t), cs[|cs| - 1];
      var k := KeyOf(c, t);
      GroupsConserve(cs[..|cs| - 1], t);
      if k in gs.at {
        SumAtSets(gs.order, gs.at, k, Add(gs.at[k], c));
      } else {
        SumAtAddsKey(gs.order, gs.at, k, Add(Empty(c, t), c));
      }
    }
  }

  // ---------------------------------------------------------------------------
  // Ordering
  // ---------------------------------------------------------------------------

  /** Strings compare character by character. */
  predicate TextLe(a: string, b: string) {
    a == "" || (b != "" && (a[0] < b[0] || (a[0] == b[0] && TextLe(a[1..], b[1..]))))
  }

  lemma TextLeIsTotal(a: string, b: string)
    ensures TextLe(a, b) || TextLe(b, a)
  {
  }

  /** The sort key: unmapped after mapped, and by folded name within each. */
  predicate Before(a: Candidate, b: Candidate, t: Text) {
    if a.cpePrefix.Some? != b.cpePrefix.Some? then a.cpePrefix.Some?
    else TextLe(t.casefold(a.name), t.casefold(b.name))
  }

  /** Insert after everything that may stand before `x`, which keeps equal candidates in their order. */
  function Insert(x: Candidate, s: seq<Candidate>, t: Text): (r: seq<Candidate>)
    ensures multiset(r) == multiset{x} + multiset(s)
  {
    if s == [] then [x]
    else if !Before(s[0], x, t) then [x] + s
    else
      assert s == [s[0]] + s[1..];
      [s[0]] + Insert(x, s[1..], t)
  }

  function Sorted(s: seq<Candidate>, t: Text): (r: seq<Candidate>)
    ensures multiset(r) == multiset(s)
  {
    if s == [] then []
    else
      assert s == s[..|s| - 1] + [s[|s| - 1]];
      Insert(s[|s| - 1], Sorted(s[..|s| - 1], t), t)
  }

  predicate InOrder(s: seq<Candidate>, t: Text) {
    forall i :: 0 <= i < |s| - 1 ==> Before(s[i], s[i + 1], t)
  }

  lemma {:induction false} InsertKeepsOrder(x: Candidate, s: seq<Candidate>, t: Text)
    requires InOrder(s, t)
    ensures InOrder(Insert(x, s, t), t)
    ensures s != [] ==> Insert(x, s, t)[0] in {x, s[0]}
  {
    if s == [] {
    } else if !Before(s[0], x, t) {
      TextLeIsTotal(t.casefold(s[0].name), t.casefold(x.name));
    } else {
      InsertKeepsOrder(x, s[1..], t);
      var rest := Insert(x, s[1..], t);
      assert rest != [] && (s[1..] != [] ==> s[1..][0] == s[1]);
      assert Before(s[0], rest[0], t);
    }
  }

  lemma {:induction false} SortedIsInOrder(s: seq<Candidate>, t: Text)
    ensures InOrder(Sorted(s, t), t)
  {
    if s != [] {
      SortedIsInOrder(s[..|s| - 1], t);
      InsertKeepsOrder(s[|s| - 1], Sorted(s[..|s| - 1], t), t);
    }
  }

  /** The order of texts: a prefix comes first, and otherwise the first character that differs decides. */
  lemma {:induction false} TextLeTells(a: string, b: string, i: nat)
    requires i <= |a| && i <= |b| && a[..i] == b[..i]
    ensures i == |a| ==> TextLe(a, b)
    ensures i == |b| < |a| ==> !TextLe(a, b)
    ensures i < |a| && i < |b| && a[i] < b[i] ==> TextLe(a, b)
    ensures i < |a| && i < |b| && a[i] > b[i] ==> !TextLe(a, b)
  {
    if i > 0 {
      assert a[0] == a[..i][0] && b[0] == b[..i][0];
      assert a[1..][..i - 1] == a[..i][1..] && b[1..][..i - 1] == b[..i][1..];
      TextLeTells(a[1..], b[1..], i - 1);
    }
  }

  lemma {:induction false} TextLeIsTransitive(a: string, b: string, c: string)
    requires TextLe(a, b) && TextLe(b, c)
    ensures TextLe(a, c)
  {
    if a != "" && a[0] == b[0] == c[0] {
      TextLeIsTransitive(a[1..], b[1..], c[1..]);
    }
  }

  /** In a list in order, mapped candidates come first, and each half is alphabetical by folded name. */
  lemma {:induction false} InOrderTells(s: seq<Candidate>, t: Text, i: nat, j: nat)
    requires InOrder(s, t) && i < j < |s|
    ensures s[j].cpePrefix.Some? ==> s[i].cpePrefix.Some?
    ensures (s[i].cpePrefix.Some? <==> s[j].cpePrefix.Some?) ==> TextLe(t.casefold(s[i].name), t.casefold(s[j].name))
    decreases j - i
  {
    assert Before(s[j - 1], s[j], t);
    if i < j - 1 {
      InOrderTells(s, t, i, j - 1);
      if s[i].cpePrefix.Some? <==> s[j].cpePrefix.Some? {
        TextLeIsTransitive(t.casefold(s[i].name), t.casefold(s[j - 1].name), t.casefold(s[j].name));
      }
    }
  }

  /** Mapped or not, as asked, and with the given folded name. */
  predicate Ties(c: Candidate, mapped: bool, folded: string, t: Text) {
    c.cpePrefix.Some? == mapped && t.casefold(c.name) == folded
  }

  /** The candidates of a list that tie with each other in the sort. */
  function Tied(s: seq<Candidate>, mapped: bool, folded: string, t: Text): seq<Candidate> {
    if s == [] then [] else (if Ties(s[0], mapped, folded, t) then [s[0]] else []) + Tied(s[1..], mapped, folded, t)
  }

  lemma {:induction false} TiedOfTwo(a: seq<Candidate>, b: seq<Candidate>, mapped: bool, folded: string, t: Text)
    ensures Tied(a + b, mapped, folded, t) == Tied(a, mapped, folded, t) + Tied(b, mapped, folded, t)
  {
    if a == [] {
      assert a + b == b;
    } else {
      assert (a + b)[1..] == a[1..] + b;
      TiedOfTwo(a[1..], b, mapped, folded, t);
    }
  }

  lemma {:induction false} NoneTied(s: seq<Candidate>, mapped: bool, folded: string, t: Text)
    requires forall i :: 0 <= i < |s| ==> !Ties(s[i], mapped, folded, t)
    ensures Tied(s, mapped, folded, t) == []
  {
    if s != [] {
      NoneTied(s[1..], mapped, folded, t);
    }
  }

  lemma {:induction false} TextLeIsReflexive(a: string)
    ensures TextLe(a, a)
  {
    if a != "" {
      TextLeIsReflexive(a[1..]);
    }
  }

  /** Nothing that `x` is put in front of ties with it. */
  lemma InFrontOfNoTie(x: Candidate, s: seq<Candidate>, t: Text, i: nat)
    requires InOrder(s, t) && i < |s| && !Before(s[0], x, t)
    ensures !Ties(s[i], x.cpePrefix.Some?, t.casefold(x.name), t)
  {
    if i > 0 {
      InOrderTells(s, t, 0, i);
    } else {
      TextLeIsReflexive(t.casefold(x.name));
    }
  }

  lemma SeqAssociates<T>(a: seq<T>, b: seq<T>, c: seq<T>)
    ensures a + (b + c) == (a + b) + c
  {
  }

  lemma FrontTies(x: Candidate, s: seq<Candidate>, mapped: bool, folded: string, t: Text)
    requires InOrder(s, t) && s != [] && !Before(s[0], x, t)
    ensures Tied([x] + s, mapped, folded, t) == Tied(s, mapped, folded, t) + Tied([x], mapped, folded, t)
  {
    TiedOfTwo([x], s, mapped, folded, t);
    if Ties(x, mapped, folded, t) {
      forall i | 0 <= i < |s| ensures !Ties(s[i], mapped, folded, t) {
        InFrontOfNoTie(x, s, t, i);
      }
      NoneTied(s, mapped, folded, t);
    } else {
      NoneTied([x], mapped, folded, t);
    }
  }

  lemma {:induction false} InsertTies(x: Candidate, s: seq<Candidate>, mapped: bool, folded: string, t: Text)
    requires InOrder(s, t)
    ensures Tied(Insert(x, s, t), mapped, folded, t) == Tied(s, mapped, folded, t) + Tied([x], mapped, folded, t)
  {
    if s == [] {
    } else if !Before(s[0], x, t) {
      FrontTies(x, s, mapped, folded, t);
      assert Insert(x, s, t) == [x] + s;
    } else {
      assert Insert(x, s, t) == [s[0]] + Insert(x, s[1..], t);
      InsertTies(x, s[1..], mapped, folded, t);
      TiedOfTwo([s[0]], Insert(x, s[1..], t), mapped, folded, t);
      TiedOfTwo([s[0]], s[1..], mapped, folded, t);
      assert [s[0]] + s[1..] == s;
      SeqAssociates(Tied([s[0]], mapped, folded, t), Tied(s[1..], mapped, folded, t), Tied([x], mapped, folded, t));
    }
  }

  /** The sort is stable: candidates that tie keep the order in which their groups were opened. */
  lemma {:induction false} SortIsStable(s: seq<Candidate>, mapped: bool, folded: string, t: Text)
    ensures Tied(Sorted(s, t), mapped, folded, t) == Tied(s, mapped, folded, t)
  {
    if s != [] {
      var init, x := s[..|s| - 1], s[|s| - 1];
      SortIsStable(init, mapped, folded, t);
      SortedIsInOrder(init, t);
      InsertTies(x, Sorted(init, t), mapped, folded, t);
      TiedOfTwo(init, [x], mapped, folded, t);
      assert s == init + [x];
    }
  }

  lemma {:induction false} InsertSums(x: Candidate, s: seq<Candidate>, t: Text)
    ensures SumCounts(Insert(x, s, t)) == x.componentCount + SumCounts(s)
  {
    if s == [] {
    } else if !Before(s[0], x, t) {
      assert ([x] + s)[1..] == s;
    } else {
      InsertSums(x, s[1..], t);
      assert Insert(x, s, t)[1..] == Insert(x, s[1..], t);
    }
  }

  lemma {:induction false} SortedSums(order: seq<Key>, at: map<Key, Candidate>, t: Text)
    requires forall k :: k in order ==> k in at
    ensures SumCounts(Sorted(Groups(order, at).Values(), t)) == SumAt(order, at)
  {
    if order != [] {
      var vs := Groups(order, at).Values();
      var init := order[..|order| - 1];
      assert vs[..|vs| - 1] == Groups(init, at).Values();
      SortedSums(init, at, t);
      InsertSums(vs[|vs| - 1], Sorted(vs[..|vs| - 1], t), t);
    }
  }

  /** In a list in order nothing mapped comes after something unmapped. */
  lemma {:induction false} MappedFirst(s: seq<Candidate>, t: Text, i: nat, j: nat)
    requires InOrder(s, t) && i <= j < |s| && s[j].cpePrefix.Some?
    ensures s[i].cpePrefix.Some?
    decreases j - i
  {
    if i < j {
      MappedFirst(s, t, i, j - 1) by {
        assert Before(s[j - 1], s[j], t);
      }
    }
  }

  function Candidates(cs: seq<Component>, t: Text): seq<Candidate> {
    Sorted(Grouped(cs, t).Values(), t)
  }

  /** The grouping loop of `build_candidates`, and its final sort. */
  method BuildCandidates(cs: seq<Component>, t: Text) returns (out: seq<Candidate>)
    ensures out == Candidates(cs, t)
  {
    var order: seq<Key> := [];
    var at: map<Key, Candidate> := map[];
    for i := 0 to |cs|
      invariant Groups(order, at) == Grouped(cs[..i], t)
    {
      assert cs[..i + 1][..i] == cs[..i];
      order, at := AddComponent(order, at, cs[i], t);
    }
    assert cs[..|cs|] == cs;
    out := Sorted(Groups(order, at).Values(), t);
  }

  /** One turn of the loop: open a group if need be, and add the component to it. */
  method AddComponent(order0: seq<Key>, at0: map<Key, Candidate>, c: Component, t: Text)
    returns (order: seq<Key>, at: map<Key, Candidate>)
    ensures Groups(order, at) == Absorb(Groups(order0, at0), c, t)
  {
    order, at := order0, at0;
    var k := KeyOf(c, t);
    if k !in at {
      order := order + [k];
      at := at[k := Empty(c, t)];
    }
    at := at[k := Add(at[k], c)];
  }

  predicate DistinctPrefixes(gs: seq<Candidate>) {
    forall i, j :: 0 <= i < j < |gs| && gs[i].cpePrefix.Some? ==> gs[i].cpePrefix != gs[j].cpePrefix
  }

  lemma {:induction false} InsertKeepsDistinct(x: Candidate, s: seq<Candidate>, t: Text)
    requires DistinctPrefixes(s)
    requires x.cpePrefix.Some? ==> forall i :: 0 <= i < |s| ==> s[i].cpePrefix != x.cpePrefix
    ensures DistinctPrefixes(Insert(x, s, t))
  {
    if s == [] || !Before(s[0], x, t) {
    } else {
      InsertKeepsDistinct(x, s[1..], t);
      var rest := Insert(x, s[1..], t);
      forall i | 0 <= i < |rest| ensures rest[i] == x || rest[i] in s[1..] {
        assert rest[i] in multiset(rest);
      }
    }
  }

  lemma {:induction false} SortedKeepsDistinct(s: seq<Candidate>, t: Text)
    requires DistinctPrefixes(s)
    ensures DistinctPrefixes(Sorted(s, t))
  {
    if s != [] {
      var init, x := s[..|s| - 1], s[|s| - 1];
      SortedKeepsDistinct(init, t);
      var sorted := Sorted(init, t);
      forall i | 0 <= i < |sorted| ensures x.cpePrefix.Some? ==> sorted[i].cpePrefix != x.cpePrefix {
        assert sorted[i] in multiset(sorted) && sorted[i] in init;
      }
      InsertKeepsDistinct(x, sorted, t);
    }
  }

  /** Every candidate describes the components of one key, and every component's key has a candidate. */
  lemma CandidatesDescribe(cs: seq<Component>, t: Text)
    ensures forall g :: g in Candidates(cs, t) ==> exists k :: Describes(g, k, cs, t)
    ensures forall i :: 0 <= i < |cs| ==>
              exists g :: g in Candidates(cs, t) && Describes(g, KeyOf(cs[i], t), cs, t)
  {
    var gs, out := Grouped(cs, t), Candidates(cs, t);
    var vs := gs.Values();
    assert multiset(out) == multiset(vs);
    forall g | g in out ensures exists k :: Describes(g, k, cs, t) {
      assert g in multiset(vs);
      var i :| 0 <= i < |vs| && vs[i] == g;
      GroupDescribes(cs, t, gs.order[i]);
    }
    forall i | 0 <= i < |cs| ensures exists g :: g in out && Describes(g, KeyOf(cs[i], t), cs, t) {
      var k := KeyOf(cs[i], t);
      KeyIsGrouped(cs, i, t);
      GroupDescribes(cs, t, k);
      var n :| 0 <= n < |gs.order| && gs.order[n] == k;
      assert vs[n] in multiset(out);
    }
  }

  lemma ValuesHaveDistinctPrefixes(cs: seq<Component>, t: Text)
    ensures DistinctPrefixes(Grouped(cs, t).Values())
  {
    var gs := Grouped(cs, t);
    forall i | 0 <= i < |gs.order|
      ensures gs.Values()[i].cpePrefix == match gs.order[i] case ByCpe(p) => Some(p) case ByName(_) => None
    {
      GroupDescribes(cs, t, gs.order[i]);
    }
  }

  /**
   Candidates partition the components: the counts add up to the input, prefixes are distinct, and mapped candidates
   come first, then alphabetically.
   */
  lemma CandidatesPartition(cs: seq<Component>, t: Text)
    ensures var out := Candidates(cs, t);
            && SumCounts(out) == |cs|
            && DistinctPrefixes(out)
            && (forall i, j :: 0 <= i < j < |out| && out[j].cpePrefix.Some? ==> out[i].cpePrefix.Some?)
            && InOrder(out, t)
  {
    var gs, out := Grouped(cs, t), Candidates(cs, t);
    GroupsConserve(cs, t);
    SortedSums(gs.order, gs.at, t);
    SortedIsInOrder(gs.Values(), t);
    ValuesHaveDistinctPrefixes(cs, t);
    SortedKeepsDistinct(gs.Values(), t);
    forall i, j | 0 <= i < j < |out| && out[j].cpePrefix.Some? ensures out[i].cpePrefix.Some? {
      MappedFirst(out, t, i, j);
    }
  }

  lemma {:induction false} KeyIsGrouped(cs: seq<Component>, i: nat, t: Text)
    requires i < |cs|
    ensures KeyOf(cs[i], t) in Grouped(cs, t).at
  {
    if i < |cs| - 1 {
      KeyIsGrouped(cs[..|cs| - 1], i, t);
    }
  }
}
