// A map that remembers insertion order, with entries that belong to profiles: what the store keeps
// its contexts, claims, attempts, tombstones and device generations in.
module OrderedTables {
  import opened Outcomes

  type Profile = nat

  datatype Row<K, V> = Row(profile: Profile, key: K, value: V)

  type Table<K, V> = seq<Row<K, V>>

  predicate Is<K(==, !new), V(!new)>(row: Row<K, V>, profile: Profile, key: K) {
    row.profile == profile && row.key == key
  }

  predicate Distinct<K(==, !new), V(!new)>(t: Table<K, V>) {
    forall i, j :: 0 <= i < j < |t| ==> !Is(t[i], t[j].profile, t[j].key)
  }

  function Lookup<K(==, !new), V(!new)>(t: Table<K, V>, profile: Profile, key: K): (v: Option<V>)
    ensures v.Some? ==> Row(profile, key, v.value) in t
    ensures v.None? ==> forall row :: row in t ==> !Is(row, profile, key)
  {
    if |t| == 0 then None
    else if Is(t[0], profile, key) then Some(t[0].value)
    else Lookup(t[1..], profile, key)
  }

  /** The rows that satisfy a condition, in order. */
  function Keep<K(!new), V(!new)>(t: Table<K, V>, keep: Row<K, V> -> bool): Table<K, V> {
    if |t| == 0 then []
    else if keep(t[0]) then [t[0]] + Keep(t[1..], keep)
    else Keep(t[1..], keep)
  }

  function Remove<K(==, !new), V(!new)>(t: Table<K, V>, profile: Profile, key: K): Table<K, V> {
    Keep(t, (row: Row<K, V>) => !Is(row, profile, key))
  }

  /** delete, then set: the row becomes the newest. */
  function Put<K(==, !new), V(!new)>(t: Table<K, V>, profile: Profile, key: K, value: V): Table<K, V> {
    Remove(t, profile, key) + [Row(profile, key, value)]
  }

  function DropProfile<K(!new), V(!new)>(t: Table<K, V>, profile: Profile): Table<K, V> {
    Keep(t, (row: Row<K, V>) => row.profile != profile)
  }

  /** _countForProfile. */
  function CountFor<K(!new), V(!new)>(t: Table<K, V>, profile: Profile): (n: nat)
    ensures n <= |t|
  {
    if |t| == 0 then 0 else (if t[0].profile == profile then 1 else 0) + CountFor(t[1..], profile)
  }

  /** _deleteOldestForProfile. */
  function DropOldest<K(!new), V(!new)>(t: Table<K, V>, profile: Profile): Table<K, V> {
    if |t| == 0 then []
    else if t[0].profile == profile then t[1..]
    else [t[0]] + DropOldest(t[1..], profile)
  }

  // ---------------------------------------------------------------- laws

  lemma {:induction false} KeepSelects<K(!new), V(!new)>(t: Table<K, V>, keep: Row<K, V> -> bool)
    ensures forall row :: row in Keep(t, keep) <==> row in t && keep(row)
    ensures |Keep(t, keep)| <= |t|
    ensures forall p: Profile :: CountFor(Keep(t, keep), p) <= CountFor(t, p)
  {
    if |t| > 0 {
      KeepSelects(t[1..], keep);
      assert t == [t[0]] + t[1..];
    }
  }

  lemma HeadIsAlone<K(!new), V(!new)>(t: Table<K, V>)
    requires Distinct(t) && |t| > 0
    ensures Distinct(t[1..]) && forall row :: row in t[1..] ==>
      !Is(t[0], row.profile, row.key) && !Is(row, t[0].profile, t[0].key)
  {
    forall row | row in t[1..] ensures !Is(t[0], row.profile, row.key) {
      var i :| 0 <= i < |t[1..]| && t[1..][i] == row;
      assert !Is(t[0], t[i + 1].profile, t[i + 1].key);
    }
  }

  /** A row with a key of its own may stand at the head. */
  lemma HeadStaysAlone<K(!new), V(!new)>(head: Row<K, V>, rest: Table<K, V>)
    requires Distinct(rest) && forall row :: row in rest ==> !Is(head, row.profile, row.key)
    ensures Distinct([head] + rest)
  {
    assert forall i :: 0 <= i < |rest| ==> rest[i] in rest;
  }

  lemma {:induction false} KeepStaysDistinct<K(!new), V(!new)>(t: Table<K, V>, keep: Row<K, V> -> bool)
    requires Distinct(t)
    ensures Distinct(Keep(t, keep))
  {
    if |t| > 0 {
      HeadIsAlone(t);
      KeepStaysDistinct(t[1..], keep);
      KeepSelects(t[1..], keep);
      var rest := Keep(t[1..], keep);
      assert forall row :: row in rest ==> row in t[1..];
      HeadStaysAlone(t[0], rest);
    }
  }

  /** In a table with distinct keys, a row is found exactly if it is there. */
  lemma {:induction false} LookupFinds<K(!new), V(!new)>(t: Table<K, V>, profile: Profile, key: K, value: V)
    requires Distinct(t)
    ensures Lookup(t, profile, key) == Some(value) <==> Row(profile, key, value) in t
  {
    if |t| > 0 {
      HeadIsAlone(t);
      LookupFinds(t[1..], profile, key, value);
      assert t == [t[0]] + t[1..];
    }
  }

  lemma {:induction false} CountForAppends<K(!new), V(!new)>(t: Table<K, V>, row: Row<K, V>, profile: Profile)
    ensures CountFor(t + [row], profile) == CountFor(t, profile) + if row.profile == profile then 1 else 0
  {
    if |t| == 0 {
      assert t + [row] == [row] && [row][1..] == [];
      assert CountFor<K, V>([], profile) == 0;
    } else {
      assert (t + [row])[1..] == t[1..] + [row];
      CountForAppends(t[1..], row, profile);
    }
  }

  /** Removing a key that is there makes room for exactly one row of its profile. */
  lemma {:induction false} RemoveMakesRoom<K(!new), V(!new)>(t: Table<K, V>, profile: Profile, key: K)
    requires Distinct(t) && Lookup(t, profile, key).Some?
    ensures |Remove(t, profile, key)| == |t| - 1
    ensures CountFor(Remove(t, profile, key), profile) == CountFor(t, profile) - 1
  {
    HeadIsAlone(t);
    if Is(t[0], profile, key) {
      KeepAll(t[1..], (row: Row<K, V>) => !Is(row, profile, key));
      assert Remove(t, profile, key) == t[1..];
    } else {
      RemoveMakesRoom(t[1..], profile, key);
      assert Remove(t, profile, key) == [t[0]] + Remove(t[1..], profile, key);
    }
  }

  lemma {:induction false} KeepAll<K(!new), V(!new)>(t: Table<K, V>, keep: Row<K, V> -> bool)
    requires forall row :: row in t ==> keep(row)
    ensures Keep(t, keep) == t
  {
    if |t| > 0 {
      assert t[0] in t && forall row :: row in t[1..] ==> row in t;
      KeepAll(t[1..], keep);
    }
  }

  lemma PutStaysDistinct<K(!new), V(!new)>(t: Table<K, V>, profile: Profile, key: K, value: V)
    requires Distinct(t)
    ensures Distinct(Put(t, profile, key, value))
    ensures forall row :: row in Put(t, profile, key, value)
              <==> row == Row(profile, key, value) || (row in t && !Is(row, profile, key))
  {
    var keep := (row: Row<K, V>) => !Is(row, profile, key);
    KeepStaysDistinct(t, keep);
    KeepSelects(t, keep);
    var rest := Keep(t, keep);
    assert forall i :: 0 <= i < |rest| ==> rest[i] in rest;
  }

  /** A row added under a new key grows the table and its profile by one, under a known key not at all. */
  lemma PutSize<K(!new), V(!new)>(t: Table<K, V>, profile: Profile, key: K, value: V)
    requires Distinct(t)
    ensures
      var t', fresher := Put(t, profile, key, value), Lookup(t, profile, key).None?;
      && |t'| == |t| + (if fresher then 1 else 0)
      && CountFor(t', profile) == CountFor(t, profile) + (if fresher then 1 else 0)
      && forall p: Profile :: p != profile ==> CountFor(t', p) <= CountFor(t, p)
  {
    var keep := (row: Row<K, V>) => !Is(row, profile, key);
    var rest := Remove(t, profile, key);
    CountsAppend(rest, Row(profile, key, value));
    KeepSelects(t, keep);
    if Lookup(t, profile, key).Some? {
      RemoveMakesRoom(t, profile, key);
    } else {
      KeepAll(t, keep);
    }
  }

  lemma CountsAppend<K(!new), V(!new)>(t: Table<K, V>, row: Row<K, V>)
    ensures forall p: Profile :: CountFor(t + [row], p) == CountFor(t, p) + if row.profile == p then 1 else 0
  {
    forall p: Profile ensures CountFor(t + [row], p) == CountFor(t, p) + if row.profile == p then 1 else 0 {
      CountForAppends(t, row, p);
    }
  }

  lemma {:induction false} DropOldestSelects<K(!new), V(!new)>(t: Table<K, V>, profile: Profile)
    ensures forall row :: row in DropOldest(t, profile) ==> row in t
    ensures forall row :: row in t && row.profile != profile ==> row in DropOldest(t, profile)
  {
    if |t| > 0 {
      assert t == [t[0]] + t[1..];
      if t[0].profile != profile {
        DropOldestSelects(t[1..], profile);
      }
    }
  }

  lemma {:induction false} DropOldestStaysDistinct<K(!new), V(!new)>(t: Table<K, V>, profile: Profile)
    requires Distinct(t)
    ensures Distinct(DropOldest(t, profile))
  {
    if |t| > 0 {
      HeadIsAlone(t);
      if t[0].profile != profile {
        DropOldestStaysDistinct(t[1..], profile);
        DropOldestSelects(t[1..], profile);
        HeadStaysAlone(t[0], DropOldest(t[1..], profile));
      }
    }
  }

  /** It frees one row of the profile, if there is one, and no other. */
  lemma {:induction false} DropOldestSize<K(!new), V(!new)>(t: Table<K, V>, profile: Profile, p: Profile)
    ensures
      var freed := if CountFor(t, profile) > 0 then 1 else 0;
      && |DropOldest(t, profile)| == |t| - freed
      && CountFor(DropOldest(t, profile), p) == CountFor(t, p) - (if p == profile then freed else 0)
  {
    if |t| > 0 && t[0].profile != profile {
      DropOldestSize(t[1..], profile, p);
    }
  }
}
