// What an expired context leaves behind: tombstones, as long as there is room for them.
module ContextTombstones {
  import opened Outcomes
  import opened OrderedTables
  import opened ContextMerge
  import opened ContextStore
  import opened ContextCoherence
  import opened ContextClaims

  // ---------------------------------------------------------------- one tombstone

  lemma {:induction false} DropOldestKeepsTheNewest(t: Table<Fingerprint, Tombstone>, profile: Profile)
    requires |t| > 0 && t[|t| - 1].profile == profile && CountFor(t, profile) >= 2
    ensures |DropOldest(t, profile)| > 0
    ensures DropOldest(t, profile)[|DropOldest(t, profile)| - 1] == t[|t| - 1]
  {
    if t[0].profile != profile {
      DropOldestKeepsTheNewest(t[1..], profile);
    }
  }

  lemma {:induction false} TrimKeepsTheNewest(config: Config, t: Table<Fingerprint, Tombstone>, profile: Profile)
    requires Distinct(t) && |t| > 0 && t[|t| - 1].profile == profile && config.maxTombstonesPerProfile >= 1
    ensures Distinct(TrimTombstones(config, t, profile))
    ensures t[|t| - 1] in TrimTombstones(config, t, profile)
    decreases CountFor(t, profile)
  {
    hide Distinct, DropOldest, CountFor;
    if CountFor(t, profile) > config.maxTombstonesPerProfile {
      DropOldestSize(t, profile, profile);
      DropOldestKeepsTheNewest(t, profile);
      DropOldestStaysDistinct(t, profile);
      TrimKeepsTheNewest(config, DropOldest(t, profile), profile);
    }
  }

  /** A tombstone that is added is there afterwards, for the later of both times, unless the whole table is full
      and its profile has none to give up. */
  lemma TombstoneIsLeft(
    config: Config, t: Table<Fingerprint, Tombstone>, profile: Profile, f: Fingerprint, until: nat)
    requires Distinct(t) && config.maxTombstonesPerProfile >= 1
    ensures
      var before, t' := Lookup(t, profile, f), AddTombstone(config, t, profile, f, until);
      var refused := before.None? && |t| >= config.maxTombstones
                     && CountFor(t, profile) < config.maxTombstonesPerProfile;
      if refused then t' == t
      else Lookup(t', profile, f)
           == Some(Tombstone(if before.Some? && before.value.until > until then before.value.until else until))
  {
    hide TrimTombstones;
    var put := Put(t, profile, f, Tombstone(until));
    PutStaysDistinct(t, profile, f, Tombstone(until));
    TrimKeepsTheNewest(config, put, profile);
    assert put[|put| - 1] == Row(profile, f, Tombstone(until));
    LookupFinds(TrimTombstones(config, put, profile), profile, f, Tombstone(until));
  }

  // ---------------------------------------------------------------- all of a purge

  /** Every tombstone is still there, and lasts no shorter. */
  ghost predicate Covers(t: Table<Fingerprint, Tombstone>, t': Table<Fingerprint, Tombstone>) {
    forall p: Profile, f: Fingerprint :: Lookup(t, p, f).Some? ==>
      Lookup(t', p, f).Some? && Lookup(t', p, f).value.until >= Lookup(t, p, f).value.until
  }

  ghost predicate Buried(t: Table<Fingerprint, Tombstone>, profile: Profile, f: Fingerprint, until: nat) {
    Lookup(t, profile, f).Some? && Lookup(t, profile, f).value.until >= until
  }

  predicate Fits(config: Config, size: nat) {
    size <= config.maxTombstones && size <= config.maxTombstonesPerProfile
  }

  lemma AddWithRoom(config: Config, t: Table<Fingerprint, Tombstone>, profile: Profile, f: Fingerprint, until: nat)
    requires Distinct(t) && Fits(config, |t| + 1)
    ensures
      var t' := AddTombstone(config, t, profile, f, until);
      Distinct(t') && |t'| <= |t| + 1 && Covers(t, t') && Buried(t', profile, f, until)
  {
    hide Put, Lookup;
    var put := Put(t, profile, f, Tombstone(until));
    PutStaysDistinct(t, profile, f, Tombstone(until));
    PutSize(t, profile, f, Tombstone(until));
    forall p: Profile, g: Fingerprint
      ensures Lookup(put, p, g) == if profile == p && f == g then Some(Tombstone(until)) else Lookup(t, p, g)
    {
      LookupAfterPut(t, profile, f, Tombstone(until), p, g);
    }
  }

  lemma {:induction false} AddAllWithRoom(
    config: Config, t: Table<Fingerprint, Tombstone>, profile: Profile, fingerprints: seq<Fingerprint>, until: nat)
    requires Distinct(t) && Fits(config, |t| + |fingerprints|)
    ensures
      var t' := AddTombstones(config, t, profile, fingerprints, until);
      && Distinct(t') && |t'| <= |t| + |fingerprints| && Covers(t, t')
      && forall f :: f in fingerprints ==> Buried(t', profile, f, until)
    decreases |fingerprints|
  {
    hide AddTombstone, Lookup, Distinct;
    if |fingerprints| > 0 {
      AddWithRoom(config, t, profile, fingerprints[0], until);
      AddAllWithRoom(config, AddTombstone(config, t, profile, fingerprints[0], until), profile, fingerprints[1..],
        until);
      assert fingerprints == [fingerprints[0]] + fingerprints[1..];
    }
  }

  function FingerprintCount(contexts: Table<nat, Stored>): nat {
    if |contexts| == 0 then 0 else |contexts[0].value.context.fingerprints| + FingerprintCount(contexts[1..])
  }

  /** The context is over, and its tombstones are not. */
  predicate LeavesTombstones(config: Config, row: Row<nat, Stored>, now: nat) {
    row.value.context.expiresAt <= now < row.value.context.expiresAt + config.tombstoneTtl
  }

  lemma {:induction false} BuryWithRoom(
    config: Config, t: Table<Fingerprint, Tombstone>, contexts: Table<nat, Stored>, now: nat)
    requires Distinct(t) && Fits(config, |t| + FingerprintCount(contexts))
    ensures
      var t' := Bury(config, t, contexts, now);
      && Distinct(t') && Covers(t, t')
      && forall row, f ::
           row in contexts && LeavesTombstones(config, row, now) && f in row.value.context.fingerprints ==>
           Buried(t', row.profile, f, row.value.context.expiresAt + config.tombstoneTtl)
    decreases |contexts|
  {
    hide AddTombstones, Lookup, Distinct;
    if |contexts| > 0 {
      var row := contexts[0];
      var until := row.value.context.expiresAt + config.tombstoneTtl;
      AddAllWithRoom(config, t, row.profile, row.value.context.fingerprints, until);
      var t1 := if LeavesTombstones(config, row, now)
                then AddTombstones(config, t, row.profile, row.value.context.fingerprints, until) else t;
      BuryWithRoom(config, t1, contexts[1..], now);
      assert contexts == [row] + contexts[1..];
    }
  }

  /** While there is room for all of them, a claim for a fingerprint of a context that has expired, and that no
      other context answers, is "expired" for the whole time of the tombstone. */
  lemma ExpiredContextIsRemembered(
    s: Store, profile: Profile, device: Device, input: ClaimInput, clock: nat, row: Row<nat, Stored>, f: Fingerprint)
    requires Coherent(s) && ConfigOk(s.config) && AnsweredAfresh(s, profile, device, input, clock)
    requires Fits(s.config, |s.tombstones| + FingerprintCount(s.contexts))
    requires row in s.contexts && row.profile == profile && LeavesTombstones(s.config, row, ReadNow(s, clock))
    requires f in row.value.context.fingerprints && f in input.fingerprints
    requires forall other :: !Candidate(s, other, profile, input, clock)
    ensures ClaimCall(s, profile, device, input, clock).1 == Ok(Expired(input.session))
  {
    hide ClaimCall, Candidate, AnsweredAfresh, Bury, Current, ContextsOk, ClaimsOk, Lookup;
    var now := ReadNow(s, clock);
    BuryWithRoom(s.config, s.tombstones, s.contexts, now);
    LookupAfterKeep(Bury(s.config, s.tombstones, s.contexts, now),
                    (row: Row<Fingerprint, Tombstone>) => row.value.until > now, profile, f);
    NoCandidateNoClaim(s, profile, device, input, clock);
    FreshIsAnswered(s, profile, device, input, clock);
  }

  lemma FreshIsAnswered(s: Store, profile: Profile, device: Device, input: ClaimInput, clock: nat)
    requires AnsweredAfresh(s, profile, device, input, clock)
    ensures ClaimCall(s, profile, device, input, clock).1.Ok?
  {
  }
}
