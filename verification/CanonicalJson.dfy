/** JSON values and the canonical form that turns tool arguments into cache keys
    (`canonical_json` in the step executor). */
module CanonicalJson {
  import opened Text

  // Object members keep the order in which they were written; their keys differ.
  datatype Json =
    | Null
    | Bool(b: bool)
    | Number(token: string)
    | Str(s: string)
    | Array(items: seq<Json>)
    | Object(members: seq<Member>)

  datatype Member = Member(key: string, value: Json)

  ghost predicate Valid(v: Json) {
    match v
    case Array(items) => forall i :: 0 <= i < |items| ==> Valid(items[i])
    case Object(ms) => ValidMembers(ms)
    case _ => true
  }

  ghost predicate ValidMembers(ms: seq<Member>) {
    ms == [] ||
    (Valid(ms[0].value) && ValidMembers(ms[1..]) && forall j :: 1 <= j < |ms| ==> ms[j].key != ms[0].key)
  }

  // ----- The canonical form: keys sorted at every depth -----

  function Canonical(v: Json): Json {
    match v
    case Array(items) => Array(CanonicalItems(items))
    case Object(ms) => Object(CanonicalMembers(ms))
    case other => other
  }

  function CanonicalItems(items: seq<Json>): seq<Json> {
    if items == [] then [] else [Canonical(items[0])] + CanonicalItems(items[1..])
  }

  function CanonicalMembers(ms: seq<Member>): seq<Member> {
    if ms == [] then []
    else InsertMember(Member(ms[0].key, Canonical(ms[0].value)), CanonicalMembers(ms[1..]))
  }

  function InsertMember(m: Member, ms: seq<Member>): seq<Member> {
    if ms == [] || StrLe(m.key, ms[0].key) then [m] + ms else [ms[0]] + InsertMember(m, ms[1..])
  }

  // ----- What a value means, whatever the order of its keys -----

  datatype Tree = Leaf(v: Json) | Ordered(ts: seq<Tree>) | Keyed(fields: map<string, Tree>)

  ghost function Meaning(v: Json): Tree {
    match v
    case Array(items) => Ordered(ItemMeanings(items))
    case Object(ms) => Keyed(Fields(ms))
    case other => Leaf(other)
  }

  ghost function ItemMeanings(items: seq<Json>): seq<Tree> {
    if items == [] then [] else [Meaning(items[0])] + ItemMeanings(items[1..])
  }

  ghost function Fields(ms: seq<Member>): map<string, Tree> {
    if ms == [] then map[] else Fields(ms[1..])[ms[0].key := Meaning(ms[0].value)]
  }

  // Keys strictly ascending at every depth.
  ghost predicate SortedDeep(v: Json) {
    match v
    case Array(items) => forall i :: 0 <= i < |items| ==> SortedDeep(items[i])
    case Object(ms) => SortedMembers(ms)
    case _ => true
  }

  ghost predicate SortedMembers(ms: seq<Member>) {
    ms == [] ||
    (SortedDeep(ms[0].value) && SortedMembers(ms[1..]) && forall j :: 1 <= j < |ms| ==> StrLt(ms[0].key, ms[j].key))
  }

  // ----- Canonicalising keeps the meaning and sorts every depth -----

  lemma InsertFirst(m: Member, ms: seq<Member>)
    requires m.key !in Fields(ms) && SortedMembers(ms) && SortedDeep(m.value)
    requires ms != [] ==> StrLe(m.key, ms[0].key)
    ensures Fields([m] + ms) == Fields(ms)[m.key := Meaning(m.value)] && SortedMembers([m] + ms)
  {
    FieldKeys(ms);
    var r := [m] + ms;
    assert r[1..] == ms;
    forall j | 1 <= j < |r| ensures StrLt(m.key, r[j].key) {
      assert r[j] == ms[j - 1] && m.key != ms[j - 1].key;
      StrLeTotal(ms[0].key, ms[0].key);
      StrLeTransitive(m.key, ms[0].key, ms[j - 1].key);
    }
  }

  // The first member stays first when what follows it still comes after.
  lemma KeepFirst(ms: seq<Member>, m: Member, rest: seq<Member>)
    requires ms != [] && SortedMembers(ms) && SortedMembers(rest) && StrLt(ms[0].key, m.key)
    requires Fields(rest) == Fields(ms[1..])[m.key := Meaning(m.value)]
    ensures Fields([ms[0]] + rest) == Fields(ms)[m.key := Meaning(m.value)] && SortedMembers([ms[0]] + rest)
  {
    assert ms[0].key != m.key;
    hide StrLt;
    var r := [ms[0]] + rest;
    assert r[1..] == rest;
    FirstFieldIsLeast(ms);
    FieldKeys(rest);
    forall j | 1 <= j < |r| ensures StrLt(ms[0].key, r[j].key) {
      var key := rest[j - 1].key;
      assert key in Fields(rest);
      assert key == m.key || key in Fields(ms) - {ms[0].key};
    }
  }

  lemma {:induction false} InsertKeepsFields(m: Member, ms: seq<Member>)
    requires m.key !in Fields(ms) && SortedMembers(ms) && SortedDeep(m.value)
    ensures Fields(InsertMember(m, ms)) == Fields(ms)[m.key := Meaning(m.value)]
    ensures SortedMembers(InsertMember(m, ms))
  {
    if ms == [] || StrLe(m.key, ms[0].key) {
      InsertFirst(m, ms);
    } else {
      FieldKeys(ms);
      FieldKeys(ms[1..]);
      StrLeTotal(m.key, ms[0].key);
      InsertKeepsFields(m, ms[1..]);
      KeepFirst(ms, m, InsertMember(m, ms[1..]));
    }
  }

  /** The fields of an object are its members' keys. */
  lemma {:induction false} FieldKeys(ms: seq<Member>)
    ensures forall k :: k in Fields(ms) <==> exists i :: 0 <= i < |ms| && ms[i].key == k
    ensures forall i :: 0 <= i < |ms| ==> ms[i].key in Fields(ms)
  {
    if ms != [] {
      FieldKeys(ms[1..]);
      assert ms == [ms[0]] + ms[1..];
      forall k ensures k in Fields(ms) <==> exists i :: 0 <= i < |ms| && ms[i].key == k {
        if i :| 0 <= i < |ms[1..]| && ms[1..][i].key == k { assert ms[i + 1].key == k; }
      }
    }
  }

  lemma {:induction false} CanonicalKeepsMeaning(v: Json)
    requires Valid(v)
    ensures Meaning(Canonical(v)) == Meaning(v) && SortedDeep(Canonical(v))
    decreases v, 1
  {
    match v
    case Array(items) => CanonicalItemsKeepMeaning(items);
    case Object(ms) => CanonicalMembersKeepMeaning(ms);
    case _ =>
  }

  lemma {:induction false} CanonicalItemsKeepMeaning(items: seq<Json>)
    requires forall i :: 0 <= i < |items| ==> Valid(items[i])
    ensures ItemMeanings(CanonicalItems(items)) == ItemMeanings(items)
    ensures forall i :: 0 <= i < |CanonicalItems(items)| ==> SortedDeep(CanonicalItems(items)[i])
    decreases items, 0
  {
    if items != [] {
      CanonicalKeepsMeaning(items[0]);
      CanonicalItemsKeepMeaning(items[1..]);
      assert CanonicalItems(items)[1..] == CanonicalItems(items[1..]);
    }
  }

  lemma {:induction false} CanonicalMembersKeepMeaning(ms: seq<Member>)
    requires ValidMembers(ms)
    ensures Fields(CanonicalMembers(ms)) == Fields(ms) && SortedMembers(CanonicalMembers(ms))
    decreases ms, 0
  {
    if ms != [] {
      CanonicalKeepsMeaning(ms[0].value);
      CanonicalMembersKeepMeaning(ms[1..]);
      FieldKeys(ms[1..]);
      InsertKeepsFields(Member(ms[0].key, Canonical(ms[0].value)), CanonicalMembers(ms[1..]));
    }
  }

  // ----- A sorted value is determined by its meaning -----

  lemma {:induction false} SortedDetermined(a: Json, b: Json)
    requires SortedDeep(a) && SortedDeep(b) && Meaning(a) == Meaning(b)
    ensures a == b
    decreases a, 1
  {
    match (a, b)
    case (Array(x), Array(y)) => SortedItemsDetermined(x, y);
    case (Object(x), Object(y)) => SortedMembersDetermined(x, y);
    case _ =>
  }

  lemma {:induction false} SortedItemsDetermined(x: seq<Json>, y: seq<Json>)
    requires forall i :: 0 <= i < |x| ==> SortedDeep(x[i])
    requires forall i :: 0 <= i < |y| ==> SortedDeep(y[i])
    requires ItemMeanings(x) == ItemMeanings(y)
    ensures x == y
    decreases x, 0
  {
    if x != [] && y != [] {
      var tx, ty := ItemMeanings(x), ItemMeanings(y);
      assert tx[0] == Meaning(x[0]) && ty[0] == Meaning(y[0]);
      assert tx[1..] == ItemMeanings(x[1..]) && ty[1..] == ItemMeanings(y[1..]);
      SortedDetermined(x[0], y[0]);
      SortedItemsDetermined(x[1..], y[1..]);
      assert x == [x[0]] + x[1..] && y == [y[0]] + y[1..];
    }
  }

  lemma FirstFieldIsLeast(ms: seq<Member>)
    requires SortedMembers(ms) && ms != []
    ensures ms[0].key in Fields(ms) && Fields(ms)[ms[0].key] == Meaning(ms[0].value)
    ensures forall k :: k in Fields(ms) ==> k == ms[0].key || StrLt(ms[0].key, k)
    ensures Fields(ms[1..]) == Fields(ms) - {ms[0].key}
  {
    FieldKeys(ms);
    FieldKeys(ms[1..]);
    assert ms[0].key !in Fields(ms[1..]);
  }

  lemma {:induction false} SortedMembersDetermined(x: seq<Member>, y: seq<Member>)
    requires SortedMembers(x) && SortedMembers(y) && Fields(x) == Fields(y)
    ensures x == y
    decreases x, 0
  {
    if x != [] { FirstFieldIsLeast(x); }
    if y != [] { FirstFieldIsLeast(y); }
    if x != [] && y != [] {
      if x[0].key != y[0].key { StrLeAntisymmetric(x[0].key, y[0].key); }
      SortedDetermined(x[0].value, y[0].value);
      SortedMembersDetermined(x[1..], y[1..]);
      assert x == [x[0]] + x[1..] && y == [y[0]] + y[1..];
    }
  }

  /** Two argument values share a canonical form exactly when they are the same
      value up to the order of object keys, at every depth. */
  lemma CanonicalExact(a: Json, b: Json)
    requires Valid(a) && Valid(b)
    ensures Canonical(a) == Canonical(b) <==> Meaning(a) == Meaning(b)
  {
    CanonicalKeepsMeaning(a);
    CanonicalKeepsMeaning(b);
    if Meaning(a) == Meaning(b) {
      SortedDetermined(Canonical(a), Canonical(b));
    }
  }

  lemma {:induction false} SortedIsValid(v: Json)
    requires SortedDeep(v)
    ensures Valid(v)
    decreases v, 1
  {
    match v
    case Array(items) => forall i | 0 <= i < |items| { SortedIsValid(items[i]); }
    case Object(ms) => SortedMembersValid(ms);
    case _ =>
  }

  lemma {:induction false} SortedMembersValid(ms: seq<Member>)
    requires SortedMembers(ms)
    ensures ValidMembers(ms)
    decreases ms, 0
  {
    if ms != [] {
      SortedIsValid(ms[0].value);
      SortedMembersValid(ms[1..]);
    }
  }

  /** A canonical form is its own canonical form. */
  lemma CanonicalIdempotent(v: Json)
    requires Valid(v)
    ensures Canonical(Canonical(v)) == Canonical(v)
  {
    CanonicalKeepsMeaning(v);
    SortedIsValid(Canonical(v));
    CanonicalExact(Canonical(v), v);
  }
}
