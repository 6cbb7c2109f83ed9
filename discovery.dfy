/**
 * Discovery: the one pass over the first non-empty device list that fills
 * the channel-to-device-key table `_dev_id` from the records' `type` tags.
 * Register is the body of that loop for one record, Discover the whole
 * pass; the lemmas say which key each channel ends up with.
 */
module Discovery {
  import opened Wrappers
  import opened Channels
  import opened Snapshots

  /** `_dev_id`: table-driven channel to device key. */
  type Table = map<Channel, string>

  /** The key recorded for a channel, if any. */
  function Entry(t: Table, c: Channel): Option<string>
  {
    if c in t then Some(t[c]) else None
  }

  /** One `if dev['type'] in [...]` test: record the key for both channels of role r. */
  function Assign(t: Table, r: Role, key: string, kind: string): Table
  {
    if kind in RoleTypes(r) then t[FlowOf(r) := key][CounterOf(r) := key] else t
  }

  /** The loop body for one record, the five tests in source order. */
  function Register(t: Table, key: string, kind: string): Table
  {
    var t1 := Assign(t, Gas, key, kind);
    var t2 := Assign(t1, DeliveredLow, key, kind);
    var t3 := Assign(t2, DeliveredHigh, key, kind);
    var t4 := Assign(t3, ReceivedLow, key, kind);
    Assign(t4, ReceivedHigh, key, kind)
  }

  /** The discovery loop over a device list, in iteration order, starting from table t. */
  function Discover(t: Table, s: seq<(string, Device)>): Table
    decreases |s|
  {
    if |s| == 0 then t
    else
      var n := |s| - 1;
      Register(Discover(t, s[..n]), s[n].0, s[n].1.kind)
  }

  /** Record j is of a type of role r and no later record is. */
  ghost predicate IsLastMatch(s: seq<(string, Device)>, r: Role, j: int)
  {
    && 0 <= j < |s|
    && s[j].1.kind in RoleTypes(r)
    && forall k :: j < k < |s| ==> s[k].1.kind !in RoleTypes(r)
  }

  /** Some record of the list is of a type of role r. */
  ghost predicate HasMatch(s: seq<(string, Device)>, r: Role)
  {
    exists k :: 0 <= k < |s| && s[k].1.kind in RoleTypes(r)
  }

  /**
   * The table invariant: only table-driven channels have entries, and the
   * two channels of a role are both absent or both map to the same key.
   */
  ghost predicate Paired(t: Table)
  {
    && (forall c :: c in t ==> RoleOf(c).Some?)
    && (forall r: Role :: Entry(t, FlowOf(r)) == Entry(t, CounterOf(r)))
  }

  /** One record sets the channels of every role its type belongs to and leaves every other entry alone. */
  lemma RegisterEntry(t: Table, key: string, kind: string, c: Channel)
    ensures Entry(Register(t, key, kind), c) ==
            if RoleOf(c).Some? && kind in RoleTypes(RoleOf(c).value) then Some(key) else Entry(t, c)
  {
    var t1 := Assign(t, Gas, key, kind);
    var t2 := Assign(t1, DeliveredLow, key, kind);
    var t3 := Assign(t2, DeliveredHigh, key, kind);
    var t4 := Assign(t3, ReceivedLow, key, kind);
    AssignEntry(t, Gas, key, kind, c);
    AssignEntry(t1, DeliveredLow, key, kind, c);
    AssignEntry(t2, DeliveredHigh, key, kind, c);
    AssignEntry(t3, ReceivedLow, key, kind, c);
    AssignEntry(t4, ReceivedHigh, key, kind, c);
  }

  /** One type test sets exactly the two channels of its role, and only on a match. */
  lemma AssignEntry(t: Table, r: Role, key: string, kind: string, c: Channel)
    ensures Entry(Assign(t, r, key, kind), c) ==
            if RoleOf(c) == Some(r) && kind in RoleTypes(r) then Some(key) else Entry(t, c)
  {
    RoleChannels(c, r);
  }

  /** If several records match a role, the last of them in iteration order wins. */
  lemma {:induction false} DiscoverLastMatch(t: Table, s: seq<(string, Device)>, r: Role, j: int)
    requires IsLastMatch(s, r, j)
    ensures Entry(Discover(t, s), FlowOf(r)) == Some(s[j].0)
    ensures Entry(Discover(t, s), CounterOf(r)) == Some(s[j].0)
    decreases |s|
  {
    var n := |s| - 1;
    RegisterEntry(Discover(t, s[..n]), s[n].0, s[n].1.kind, FlowOf(r));
    RegisterEntry(Discover(t, s[..n]), s[n].0, s[n].1.kind, CounterOf(r));
    if j < n {
      assert IsLastMatch(s[..n], r, j);
      DiscoverLastMatch(t, s[..n], r, j);
    }
  }

  /** A role no record matches keeps the entries it had before discovery. */
  lemma {:induction false} DiscoverNoMatch(t: Table, s: seq<(string, Device)>, r: Role)
    requires !HasMatch(s, r)
    ensures Entry(Discover(t, s), FlowOf(r)) == Entry(t, FlowOf(r))
    ensures Entry(Discover(t, s), CounterOf(r)) == Entry(t, CounterOf(r))
    decreases |s|
  {
    if |s| > 0 {
      var n := |s| - 1;
      assert s[n].1.kind !in RoleTypes(r);
      assert !HasMatch(s[..n], r) by {
        forall k | 0 <= k < n ensures s[..n][k].1.kind !in RoleTypes(r) {
          assert s[..n][k] == s[k];
        }
      }
      RegisterEntry(Discover(t, s[..n]), s[n].0, s[n].1.kind, FlowOf(r));
      RegisterEntry(Discover(t, s[..n]), s[n].0, s[n].1.kind, CounterOf(r));
      DiscoverNoMatch(t, s[..n], r);
    }
  }

  /** Discovery never records a channel that has no role. */
  lemma {:induction false} DiscoverKeys(t: Table, s: seq<(string, Device)>, c: Channel)
    requires RoleOf(c).None?
    ensures Entry(Discover(t, s), c) == Entry(t, c)
    decreases |s|
  {
    if |s| > 0 {
      var n := |s| - 1;
      RegisterEntry(Discover(t, s[..n]), s[n].0, s[n].1.kind, c);
      DiscoverKeys(t, s[..n], c);
    }
  }

  /** A role with a matching record has a last matching record. */
  lemma {:induction false} LastMatch(s: seq<(string, Device)>, r: Role, k: int) returns (j: int)
    requires 0 <= k < |s| && s[k].1.kind in RoleTypes(r)
    ensures IsLastMatch(s, r, j) && k <= j
    decreases |s|
  {
    var n := |s| - 1;
    if s[n].1.kind in RoleTypes(r) {
      j := n;
    } else {
      j := LastMatch(s[..n], r, k);
      assert s[..n][j] == s[j];
      forall m | j < m < |s| ensures s[m].1.kind !in RoleTypes(r) {
        if m < n { assert s[..n][m] == s[m]; }
      }
    }
  }

  /**
   * Discovery from the empty table: the table is Paired, a role's channels
   * are recorded exactly when some record matches the role, and then they
   * hold the key of the last matching record of the list.
   */
  lemma DiscoverFromEmpty(s: seq<(string, Device)>)
    ensures Paired(Discover(map[], s))
    ensures forall r: Role :: FlowOf(r) in Discover(map[], s) <==> HasMatch(s, r)
    ensures forall r: Role :: FlowOf(r) in Discover(map[], s) ==>
              exists j :: IsLastMatch(s, r, j) && Discover(map[], s)[FlowOf(r)] == s[j].0
  {
    var d := Discover(map[], s);
    forall c | c in d ensures RoleOf(c).Some? {
      if RoleOf(c).None? {
        DiscoverKeys(map[], s, c);
      }
    }
    forall r: Role
      ensures Entry(d, FlowOf(r)) == Entry(d, CounterOf(r))
      ensures FlowOf(r) in d <==> HasMatch(s, r)
      ensures FlowOf(r) in d ==> exists j :: IsLastMatch(s, r, j) && d[FlowOf(r)] == s[j].0
    {
      if HasMatch(s, r) {
        var k :| 0 <= k < |s| && s[k].1.kind in RoleTypes(r);
        var j := LastMatch(s, r, k);
        DiscoverLastMatch(map[], s, r, j);
      } else {
        DiscoverNoMatch(map[], s, r);
      }
    }
  }

  /**
   * A record of type HAE_METER_v3_5 is in the lists of both the low-tariff
   * delivered role and the high-tariff received role: as the last record it
   * provides the key of all four of their channels.
   */
  lemma HaeMeterTwoRoles(t: Table, s: seq<(string, Device)>)
    requires |s| > 0 && s[|s| - 1].1.kind == "HAE_METER_v3_5"
    ensures var d := Discover(t, s);
      && Entry(d, ElecUsageFlowLow) == Some(s[|s| - 1].0)
      && Entry(d, ElecUsageCntLow) == Some(s[|s| - 1].0)
      && Entry(d, ElecProdFlowHigh) == Some(s[|s| - 1].0)
      && Entry(d, ElecProdCntHigh) == Some(s[|s| - 1].0)
  {
    DiscoverLastMatch(t, s, DeliveredLow, |s| - 1);
    DiscoverLastMatch(t, s, ReceivedHigh, |s| - 1);
  }
}
