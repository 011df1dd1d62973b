/**
  The sliding-window quota: "at most `max` per trailing `period` milliseconds".

  Timestamps are milliseconds on the wall clock; the clock reading of an
  operation is its explicit `now` parameter. Values are integer milli-units
  (the firewall rounds every amount to three decimal places before it reaches
  the window), so sums are exact.

  Two boundaries differ on purpose in the source: pruning removes a record only
  when it is strictly OLDER than `now - period`, while the total counts a record
  only when it is strictly NEWER. A record exactly at `now - period` is kept but
  not counted.
*/
module SlidingWindow {
  import opened Wrappers

  /** Smallest accepted window length, in milliseconds. */
  const MIN_PERIOD_MS: int := 1000
  /** Prefix of the preference key under which a persisted window is stored. */
  const PERSIST_PREF: string := "SLIDING_PERSIST_"

  /** One quota entry: when it happened and how much it used. */
  datatype Record = Record(timestamp: int, value: int)

  /** The configuration errors the constructor raises. */
  datatype ConfigError = PeriodTooSmall | MaxTooSmall | NullIdentifier

  /**
    The constructor's argument checks, in the order it makes them: a period
    under one second, then a negative maximum, then a missing identifier.
  */
  function CheckConfig(max: int, period: int, identifier: Option<string>): (r: Option<ConfigError>)
    ensures r == None <==> period >= MIN_PERIOD_MS && max >= 0 && identifier.Some?
    ensures r == Some(PeriodTooSmall) <==> period < MIN_PERIOD_MS
    ensures r == Some(MaxTooSmall) <==> period >= MIN_PERIOD_MS && max < 0
    ensures r == Some(NullIdentifier) <==> period >= MIN_PERIOD_MS && max >= 0 && identifier.None?
  {
    if period < MIN_PERIOD_MS then Some(PeriodTooSmall)
    else if max < 0 then Some(MaxTooSmall)
    else if identifier.None? then Some(NullIdentifier)
    else None
  }

  /** Pruning removes a record strictly older than the expiry time. */
  predicate Expired(r: Record, expire: int) {
    r.timestamp < expire
  }

  /** The total counts a record strictly newer than the expiry time. */
  predicate Counted(r: Record, expire: int) {
    r.timestamp > expire
  }

  /** The records that survive pruning at `expire`, in their original order. */
  function Pruned(rs: seq<Record>, expire: int): (r: seq<Record>) {
    if rs == [] then []
    else (if Expired(rs[0], expire) then [] else [rs[0]]) + Pruned(rs[1..], expire)
  }

  /** The sum of the values of the records counted at `expire`. */
  function WindowTotal(rs: seq<Record>, expire: int): (r: int) {
    if rs == [] then 0
    else
      var last := rs[|rs| - 1];
      WindowTotal(rs[..|rs| - 1], expire) + (if Counted(last, expire) then last.value else 0)
  }

  /** Would adding `value` at `now` keep the counted total within `max`? */
  predicate Accepts(rs: seq<Record>, max: int, period: int, value: int, now: int) {
    WindowTotal(rs, now - period) + value <= max
  }

  /**
    The index of the first expired record (|rs| when there is none): the record
    one pass of the pruning loop removes.
  */
  function FirstExpired(rs: seq<Record>, expire: int): (i: nat)
    ensures i <= |rs|
    ensures forall j :: 0 <= j < i ==> !Expired(rs[j], expire)
    ensures i < |rs| ==> Expired(rs[i], expire)
  {
    if rs == [] then 0
    else if Expired(rs[0], expire) then 0
    else 1 + FirstExpired(rs[1..], expire)
  }

  // ---------------------------------------------------------------------------
  // Properties of pruning and of the windowed total
  // ---------------------------------------------------------------------------

  /** Pruning filters each part of a concatenation separately: survivors keep their relative order. */
  lemma {:induction false} PrunedAppend(a: seq<Record>, b: seq<Record>, expire: int)
    ensures Pruned(a + b, expire) == Pruned(a, expire) + Pruned(b, expire)
  {
    if a == [] {
      assert a + b == b;
    } else {
      assert (a + b)[0] == a[0];
      assert (a + b)[1..] == a[1..] + b;
      PrunedAppend(a[1..], b, expire);
    }
  }

  /** No survivor of pruning is expired, and every record that is not expired survives. */
  lemma {:induction false} PrunedExactly(rs: seq<Record>, expire: int)
    ensures forall r :: r in Pruned(rs, expire) ==> r in rs && !Expired(r, expire)
    ensures forall r :: r in rs && !Expired(r, expire) ==> r in Pruned(rs, expire)
  {
    if rs != [] {
      PrunedExactly(rs[1..], expire);
      forall r | r in rs && !Expired(r, expire)
        ensures r in Pruned(rs, expire)
      {
        if r != rs[0] {
          assert r in rs[1..];
        }
      }
    }
  }

  /** A list with no expired record is left as it is by pruning. */
  lemma {:induction false} PrunedNoneExpired(rs: seq<Record>, expire: int)
    requires forall j :: 0 <= j < |rs| ==> !Expired(rs[j], expire)
    ensures Pruned(rs, expire) == rs
  {
    if rs != [] {
      PrunedNoneExpired(rs[1..], expire);
      assert [rs[0]] + rs[1..] == rs;
    }
  }

  /** Pruning twice at the same time gives the same list as pruning once. */
  lemma PrunedIdempotent(rs: seq<Record>, expire: int)
    ensures Pruned(Pruned(rs, expire), expire) == Pruned(rs, expire)
  {
    var p := Pruned(rs, expire);
    PrunedExactly(rs, expire);
    forall j | 0 <= j < |p| ensures !Expired(p[j], expire) {
      assert p[j] in p;
    }
    PrunedNoneExpired(p, expire);
  }

  /** Removing the first expired record leaves the pruned list as it was. */
  lemma RemovingExpiredKeepsPruned(rs: seq<Record>, i: nat, expire: int)
    requires i < |rs| && Expired(rs[i], expire)
    ensures Pruned(rs[..i] + rs[i + 1..], expire) == Pruned(rs, expire)
  {
    assert rs == rs[..i] + ([rs[i]] + rs[i + 1..]);
    PrunedAppend(rs[..i], [rs[i]] + rs[i + 1..], expire);
    PrunedAppend([rs[i]], rs[i + 1..], expire);
    assert Pruned([rs[i]], expire) == [] by {
      assert [rs[i]][1..] == [];
    }
    PrunedAppend(rs[..i], rs[i + 1..], expire);
  }

  /** The windowed total of a concatenation is the sum of the totals of its parts. */
  lemma {:induction false} WindowTotalAppend(a: seq<Record>, b: seq<Record>, expire: int)
    ensures WindowTotal(a + b, expire) == WindowTotal(a, expire) + WindowTotal(b, expire)
  {
    if b == [] {
      assert a + b == a;
    } else {
      var n := |b| - 1;
      assert (a + b)[..|a + b| - 1] == a + b[..n];
      assert (a + b)[|a + b| - 1] == b[n];
      WindowTotalAppend(a, b[..n], expire);
    }
  }

  /** The total counts exactly the one-record lists that are counted. */
  lemma WindowTotalSingle(r: Record, expire: int)
    ensures WindowTotal([r], expire) == if Counted(r, expire) then r.value else 0
  {
    assert [r][..0] == [];
  }

  /**
    Pruning never changes the windowed total at the same expiry time: it only
    drops records strictly older than the boundary, which the total ignores.
  */
  lemma {:induction false} PrunedKeepsTotal(rs: seq<Record>, expire: int)
    ensures WindowTotal(Pruned(rs, expire), expire) == WindowTotal(rs, expire)
  {
    if rs != [] {
      assert rs == [rs[0]] + rs[1..];
      WindowTotalAppend([rs[0]], rs[1..], expire);
      WindowTotalSingle(rs[0], expire);
      PrunedKeepsTotal(rs[1..], expire);
      var head := if Expired(rs[0], expire) then [] else [rs[0]];
      WindowTotalAppend(head, Pruned(rs[1..], expire), expire);
      if !Expired(rs[0], expire) {
        WindowTotalSingle(rs[0], expire);
      }
    }
  }

  /** A record exactly at the boundary survives pruning but is left out of the total. */
  lemma BoundaryRecord(rs: seq<Record>, r: Record, expire: int)
    requires r in rs && r.timestamp == expire
    ensures r in Pruned(rs, expire)
    ensures WindowTotal([r], expire) == 0
  {
    PrunedExactly(rs, expire);
    WindowTotalSingle(r, expire);
  }

  /**
    With non-negative values, moving the expiry time forward never raises the
    total: a quota respected at one time stays respected later.
  */
  lemma {:induction false} WindowTotalAntitone(rs: seq<Record>, e1: int, e2: int)
    requires e1 <= e2
    requires forall j :: 0 <= j < |rs| ==> rs[j].value >= 0
    ensures WindowTotal(rs, e2) <= WindowTotal(rs, e1)
  {
    if rs != [] {
      WindowTotalAntitone(rs[..|rs| - 1], e1, e2);
    }
  }

  /**
    A value the window accepted at `now`, appended and pruned, leaves the total
    at `now` within `max`: the new record is counted and pruning loses no counted record.
  */
  lemma AcceptedStaysWithinMax(rs: seq<Record>, max: int, period: int, value: int, now: int)
    requires period > 0
    requires Accepts(rs, max, period, value, now)
    ensures WindowTotal(Pruned(rs + [Record(now, value)], now - period), now - period) <= max
  {
    var e := now - period;
    PrunedKeepsTotal(rs + [Record(now, value)], e);
    WindowTotalAppend(rs, [Record(now, value)], e);
    WindowTotalSingle(Record(now, value), e);
  }

  /**
    The quota object. `records` is the list the source mutates in place;
    `saved` is what the preference store holds under this window's key (the
    JSON serialisation is abstracted to the record list it encodes).
  */
  class SlidingWindowConstraint {
    const identifier: string
    const prefIdentifier: string
    const max: int
    const period: int
    const persist: bool
    var records: seq<Record>
    var saved: Option<seq<Record>>

    ghost predicate Valid()
      reads this
    {
      CheckConfig(max, period, Some(identifier)) == None && prefIdentifier == PERSIST_PREF + identifier
    }

    /**
      Creates the window. With `persist` set, `stored` is the value the
      preference store holds under the window's key (None when unset), and
      the records are loaded from it. The exceptions the source throws for bad
      arguments are `CheckConfig`'s errors.
    */
    constructor (max: int, period: int, identifier: string, persist: bool, stored: Option<seq<Record>>)
      requires CheckConfig(max, period, Some(identifier)) == None
      ensures Valid()
      ensures this.max == max && this.period == period && this.identifier == identifier
      ensures this.persist == persist
      ensures saved == (if persist then stored else None)
      ensures records == (if persist && stored.Some? then stored.value else [])
    {
      this.identifier := identifier;
      this.prefIdentifier := PERSIST_PREF + identifier;
      this.max := max;
      this.period := period;
      this.persist := persist;
      this.records := [];
      this.saved := if persist then stored else None;
      new;
      if persist && stored.Some? {
        FromJson(stored.value);
      }
    }

    /** The atomic check-then-add: adds `value` at `now` only when the window accepts it. */
    method CheckAndAddIfAcceptable(value: int, now: int) returns (ok: bool)
      requires Valid()
      modifies this
      ensures Valid()
      ensures ok == Accepts(old(records), max, period, value, now)
      ensures ok ==> records == Pruned(old(records) + [Record(now, value)], now - period)
      ensures ok ==> saved == (if persist then Some(records) else old(saved))
      ensures ok ==> WindowTotal(records, now - period) <= max
      ensures !ok ==> records == old(records) && saved == old(saved)
    {
      ok := Acceptable(value, now);
      if ok {
        Add(value, now);
        AcceptedStaysWithinMax(old(records), max, period, value, now);
      }
    }

    /** Whether `value` fits in the window at `now`; the records are not touched. */
    method Acceptable(value: int, now: int) returns (ok: bool)
      requires Valid()
      ensures ok == Accepts(records, max, period, value, now)
    {
      var total := TotalRecords(now);
      ok := total + value <= max;
    }

    /** Adds `value` stamped with the current time. */
    method Add(value: int, now: int)
      requires Valid()
      modifies this
      ensures Valid()
      ensures records == Pruned(old(records) + [Record(now, value)], now - period)
      ensures saved == (if persist then Some(records) else old(saved))
    {
      AddAt(value, now, now);
    }

    /** Adds `value` stamped `when`, then prunes at `now` and saves. */
    method AddAt(value: int, when: int, now: int)
      requires Valid()
      modifies this
      ensures Valid()
      ensures records == Pruned(old(records) + [Record(when, value)], now - period)
      ensures saved == (if persist then Some(records) else old(saved))
    {
      records := records + [Record(when, value)];
      PruneRecords(now);
      SaveRecords();
    }

    /** Writes the records to the preference store when persistence is on. */
    method SaveRecords()
      modifies this`saved
      ensures saved == (if persist then Some(records) else old(saved))
    {
      if persist {
        saved := Some(records);
      }
    }

    /** The sum of the records counted at `now`. */
    method TotalRecords(now: int) returns (total: int)
      requires Valid()
      ensures total == WindowTotal(records, now - period)
    {
      var expire := now - period;
      total := 0;
      var i := 0;
      while i < |records|
        invariant 0 <= i <= |records|
        invariant total == WindowTotal(records[..i], expire)
      {
        assert records[..i + 1][..i] == records[..i];
        if records[i].timestamp > expire {
          total := total + records[i].value;
        }
        i := i + 1;
      }
      assert records[..i] == records;
    }

    /** Removes expired records at `now`, one at a time, until none is left. */
    method PruneRecords(now: int)
      requires Valid()
      modifies this`records
      ensures records == Pruned(old(records), now - period)
    {
      var expire := now - period;
      var removed := PruneRecord(expire);
      while removed
        invariant Pruned(records, expire) == Pruned(old(records), expire)
        invariant !removed ==> FirstExpired(records, expire) == |records|
        decreases |records| + (if removed then 1 else 0)
      {
        removed := PruneRecord(expire);
      }
      PrunedNoneExpired(records, expire);
    }

    /** Removes the first record older than `expire`; says whether there was one. */
    method PruneRecord(expire: int) returns (removed: bool)
      modifies this`records
      ensures var i := FirstExpired(old(records), expire);
        && removed == (i < |old(records)|)
        && records == (if removed then old(records)[..i] + old(records)[i + 1..] else old(records))
      ensures Pruned(records, expire) == Pruned(old(records), expire)
      ensures !removed ==> FirstExpired(records, expire) == |records|
    {
      var i := 0;
      while i < |records|
        invariant 0 <= i <= |records|
        invariant forall j :: 0 <= j < i ==> !Expired(records[j], expire)
      {
        if records[i].timestamp < expire {
          RemovingExpiredKeepsPruned(records, i, expire);
          records := records[..i] + records[i + 1..];
          return true;
        }
        i := i + 1;
      }
      return false;
    }

    /** Replaces the records by a decoded record list: clear, then add all. */
    method FromJson(decoded: seq<Record>)
      modifies this`records
      ensures records == decoded
    {
      records := [];
      records := records + decoded;
    }
  }
}
