/**
  Records of the medical-office store and the three pure updaters the
  store applies to a collection: append with a fresh identifier, shallow
  merge of the records with a given identifier, and removal of the
  records whose field holds a given string.
 */
module Records {

  /** A field value as the store holds it: a JSON value. */
  datatype Value =
    | Null
    | Bool(b: bool)
    | Num(n: real)
    | Str(s: string)
    | Arr(items: seq<Value>)
    | Obj(fields: map<string, Value>)

  /** A record is an open-ended set of named fields; no schema is enforced. */
  type Record = map<string, Value>

  const ID_KEY: string := "id"
  const PATIENT_ID_KEY: string := "patientId"

  /** `r[key] === s`: the field is present and is exactly the string `s`. */
  predicate FieldIs(r: Record, key: string, s: string)
  {
    key in r && r[key] == Str(s)
  }

  /** `r.id === id` */
  predicate HasId(r: Record, id: string)
  {
    FieldIs(r, ID_KEY, id)
  }

  predicate ContainsId(coll: seq<Record>, id: string)
  {
    exists i :: 0 <= i < |coll| && HasId(coll[i], id)
  }

  /** No two records of the collection carry the same `id` value. */
  predicate UniqueIds(coll: seq<Record>)
  {
    forall i, j :: 0 <= i < j < |coll| && ID_KEY in coll[i] && ID_KEY in coll[j] ==>
      coll[i][ID_KEY] != coll[j][ID_KEY]
  }

  /** `{ ...r, id: newId }`: the supplied fields, with `id` set to `newId` whether or not `r` had one. */
  function WithId(r: Record, newId: string): (r': Record)
    ensures r'.Keys == r.Keys + {ID_KEY}
    ensures HasId(r', newId)
    ensures forall k :: k in r && k != ID_KEY ==> r'[k] == r[k]
  {
    r[ID_KEY := Str(newId)]
  }

  /** `{ ...r, ...partial }`: a shallow merge in which the fields of `partial` win. */
  function Merge(r: Record, partial: Record): (m: Record)
    ensures m.Keys == r.Keys + partial.Keys
    ensures forall k :: k in partial ==> m[k] == partial[k]
    ensures forall k :: k in r && k !in partial ==> m[k] == r[k]
  {
    r + partial
  }

  /** `[...coll, { ...r, id: newId }]` */
  function AddRecord(coll: seq<Record>, r: Record, newId: string): (c: seq<Record>)
    ensures |c| == |coll| + 1
    ensures forall i :: 0 <= i < |coll| ==> c[i] == coll[i]
    ensures HasId(c[|coll|], newId)
    ensures c[|coll|].Keys == r.Keys + {ID_KEY}
    ensures forall k :: k in r && k != ID_KEY ==> c[|coll|][k] == r[k]
  {
    coll + [WithId(r, newId)]
  }

  /** `coll.map(x => x.id === id ? { ...x, ...partial } : x)` */
  function UpdateById(coll: seq<Record>, id: string, partial: Record): (c: seq<Record>)
    ensures |c| == |coll|
    ensures forall i :: 0 <= i < |coll| && HasId(coll[i], id) ==> c[i] == Merge(coll[i], partial)
    ensures forall i :: 0 <= i < |coll| && !HasId(coll[i], id) ==> c[i] == coll[i]
  {
    if coll == [] then []
    else
      var head := if HasId(coll[0], id) then Merge(coll[0], partial) else coll[0];
      [head] + UpdateById(coll[1..], id, partial)
  }

  /** `coll.filter(x => x[key] !== s)` */
  function RemoveWhere(coll: seq<Record>, key: string, s: string): (c: seq<Record>)
    ensures |c| <= |coll|
    ensures forall x :: x in c <==> x in coll && !FieldIs(x, key, s)
  {
    if coll == [] then []
    else
      assert coll == [coll[0]] + coll[1..];
      if FieldIs(coll[0], key, s) then RemoveWhere(coll[1..], key, s)
      else [coll[0]] + RemoveWhere(coll[1..], key, s)
  }

  // ---------------------------------------------------------------------
  // add

  /**
    When the collection's identifiers are unique, they stay unique after an
    add exactly when the generated identifier is fresh; the new record is
    then the only one that carries it.
   */
  lemma AddKeepsIdsUnique(coll: seq<Record>, r: Record, newId: string)
    requires UniqueIds(coll)
    ensures UniqueIds(AddRecord(coll, r, newId)) <==> !ContainsId(coll, newId)
    ensures !ContainsId(coll, newId) ==>
      forall i :: 0 <= i < |coll| + 1 ==> (HasId(AddRecord(coll, r, newId)[i], newId) <==> i == |coll|)
  {
  }

  // ---------------------------------------------------------------------
  // update

  /** An update whose identifier no record carries leaves the collection unchanged. */
  lemma UpdateMissingIsNoOp(coll: seq<Record>, id: string, partial: Record)
    requires !ContainsId(coll, id)
    ensures UpdateById(coll, id, partial) == coll
  {
  }

  /**
    An update is a merge, not a replacement: in every record it touches,
    the fields absent from `partial` keep their values and those present
    take the supplied ones -- `id` included, since nothing protects it.
   */
  lemma UpdateIsMerge(coll: seq<Record>, id: string, partial: Record, i: nat)
    requires i < |coll| && HasId(coll[i], id)
    ensures UpdateById(coll, id, partial)[i].Keys == coll[i].Keys + partial.Keys
    ensures forall k :: k in coll[i] && k !in partial ==> UpdateById(coll, id, partial)[i][k] == coll[i][k]
    ensures forall k :: k in partial ==> UpdateById(coll, id, partial)[i][k] == partial[k]
    ensures ID_KEY in partial ==> UpdateById(coll, id, partial)[i][ID_KEY] == partial[ID_KEY]
  {
  }

  /** A partial payload without `id` leaves every record's identifier as it was, so uniqueness survives. */
  lemma UpdateKeepsIds(coll: seq<Record>, id: string, partial: Record)
    requires ID_KEY !in partial
    ensures forall i :: 0 <= i < |coll| ==>
      (ID_KEY in UpdateById(coll, id, partial)[i] <==> ID_KEY in coll[i])
    ensures forall i :: 0 <= i < |coll| && ID_KEY in coll[i] ==>
      UpdateById(coll, id, partial)[i][ID_KEY] == coll[i][ID_KEY]
    ensures UniqueIds(coll) ==> UniqueIds(UpdateById(coll, id, partial))
  {
  }

  // ---------------------------------------------------------------------
  // delete

  /** Filtering distributes over concatenation: the kept records stay in their original order. */
  lemma {:induction false} RemoveWhereConcat(a: seq<Record>, b: seq<Record>, key: string, s: string)
    ensures RemoveWhere(a + b, key, s) == RemoveWhere(a, key, s) + RemoveWhere(b, key, s)
  {
    if a == [] {
      assert a + b == b;
    } else {
      assert (a + b)[0] == a[0];
      assert (a + b)[1..] == a[1..] + b;
      RemoveWhereConcat(a[1..], b, key, s);
    }
  }

  /**
    Exactly the matching records are removed: every occurrence of a matching
    record is gone and every other record keeps its number of occurrences.
   */
  lemma {:induction false} RemoveWhereCounts(coll: seq<Record>, key: string, s: string)
    ensures forall x :: multiset(RemoveWhere(coll, key, s))[x] ==
                        (if FieldIs(x, key, s) then 0 else multiset(coll)[x])
  {
    if coll != [] {
      assert coll == [coll[0]] + coll[1..];
      RemoveWhereCounts(coll[1..], key, s);
    }
  }

  /** When no record matches, removal leaves the collection unchanged. */
  lemma {:induction false} RemoveWhereNoMatch(coll: seq<Record>, key: string, s: string)
    requires forall i :: 0 <= i < |coll| ==> !FieldIs(coll[i], key, s)
    ensures RemoveWhere(coll, key, s) == coll
  {
    if coll != [] {
      assert coll == [coll[0]] + coll[1..];
      RemoveWhereNoMatch(coll[1..], key, s);
    }
  }

  /** Removal never creates a duplicate identifier. */
  lemma {:induction false} RemoveKeepsIdsUnique(coll: seq<Record>, key: string, s: string)
    requires UniqueIds(coll)
    ensures UniqueIds(RemoveWhere(coll, key, s))
  {
    if coll != [] {
      var rest := RemoveWhere(coll[1..], key, s);
      assert UniqueIds(coll[1..]) by {
        forall i, j | 0 <= i < j < |coll[1..]| && ID_KEY in coll[1..][i] && ID_KEY in coll[1..][j]
          ensures coll[1..][i][ID_KEY] != coll[1..][j][ID_KEY]
        {
          assert coll[1..][i] == coll[i + 1] && coll[1..][j] == coll[j + 1];
        }
      }
      RemoveKeepsIdsUnique(coll[1..], key, s);
      if !FieldIs(coll[0], key, s) {
        var c := [coll[0]] + rest;
        forall i, j | 0 <= i < j < |c| && ID_KEY in c[i] && ID_KEY in c[j]
          ensures c[i][ID_KEY] != c[j][ID_KEY]
        {
          if i == 0 {
            assert c[j] == rest[j - 1];
            assert rest[j - 1] in coll[1..];
            var k :| 0 <= k < |coll[1..]| && coll[1..][k] == rest[j - 1];
            assert coll[k + 1] == c[j];
          } else {
            assert c[i] == rest[i - 1] && c[j] == rest[j - 1];
          }
        }
      }
    }
  }
}
