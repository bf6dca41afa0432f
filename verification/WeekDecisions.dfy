/** The orders submitted for one week: the snapshot players are shown, and the string key
    under which the store keeps them. Models internal/usecase/decision_store.go and the key
    of internal/infrastructure/memory/decision_store.go. */
module WeekDecisions {
  import opened Common
  import opened Chain

  datatype WeeklyDecisions = WeeklyDecisions(roomId: string, week: int, orders: Decisions)

  datatype Snapshot = Snapshot(
    roomId: string,
    week: int,
    orders: Decisions,
    submitted: seq<Role>,
    pending: seq<Role>,
    ready: bool)

  // ---------- Snapshots ----------

  /** The first n roles that have (or lack) an order. */
  function RolesWith(orders: Decisions, present: bool, n: nat): seq<Role>
    requires n <= 4
  {
    if n == 0 then []
    else
      var role := ALL_ROLES[n - 1];
      RolesWith(orders, present, n - 1) + (if (role in orders) == present then [role] else [])
  }

  function SnapshotOf(d: WeeklyDecisions): Snapshot {
    Snapshot(d.roomId, d.week, d.orders, RolesWith(d.orders, true, 4), RolesWith(d.orders, false, 4),
             |RolesWith(d.orders, false, 4)| == 0)
  }

  method TakeSnapshot(d: WeeklyDecisions) returns (s: Snapshot)
    ensures s == SnapshotOf(d)
  {
    var submitted: seq<Role> := [];
    var pending: seq<Role> := [];
    for i := 0 to 4
      invariant submitted == RolesWith(d.orders, true, i) && pending == RolesWith(d.orders, false, i)
    {
      if ALL_ROLES[i] in d.orders {
        submitted := submitted + [ALL_ROLES[i]];
      } else {
        pending := pending + [ALL_ROLES[i]];
      }
    }
    s := Snapshot(d.roomId, d.week, d.orders, submitted, pending, |pending| == 0);
  }

  lemma {:induction false} RolesSplit(orders: Decisions, n: nat)
    requires n <= 4
    ensures |RolesWith(orders, true, n)| + |RolesWith(orders, false, n)| == n
    ensures |RolesWith(orders, false, n)| == 0 <==> forall i :: 0 <= i < n ==> ALL_ROLES[i] in orders
  {
    if n > 0 {
      RolesSplit(orders, n - 1);
    }
  }

  ghost predicate KnownRolesOnly(orders: Decisions) {
    forall role :: role in orders ==> IsKnownRole(role)
  }

  /** Submitted and pending split the four roles; the week is ready when every role has an
      order, and for orders of known roles that is when there are four of them. */
  lemma ReadyMeansFour(d: WeeklyDecisions)
    ensures |SnapshotOf(d).submitted| + |SnapshotOf(d).pending| == 4
    ensures SnapshotOf(d).ready <==> Complete(d.orders)
    ensures KnownRolesOnly(d.orders) ==> (SnapshotOf(d).ready <==> |d.orders| == 4)
  {
    RolesSplit(d.orders, 4);
    assert (ALL_ROLES[0] in d.orders && ALL_ROLES[1] in d.orders && ALL_ROLES[2] in d.orders
            && ALL_ROLES[3] in d.orders) == Complete(d.orders);
    if KnownRolesOnly(d.orders) {
      FourKeys(d.orders.Keys);
    }
  }

  lemma FourKeys(keys: set<Role>)
    requires forall role :: role in keys ==> IsKnownRole(role)
    ensures |keys| == 4 <==> {Factory, Distributor, Wholesaler, Retailer} <= keys
  {
    var all := {Factory, Distributor, Wholesaler, Retailer};
    assert |all| == 4;
    assert keys <= all;
    assert all == keys + (all - keys);
    if |keys| == 4 {
      assert all - keys == {};
    }
    if all <= keys {
      assert keys == all;
    }
  }

  ghost predicate InGameOrder(roles: seq<Role>) {
    && (forall i :: 0 <= i < |roles| ==> IsKnownRole(roles[i]))
    && (forall i, j :: 0 <= i < j < |roles| ==> Place(roles[i]) < Place(roles[j]))
  }

  lemma {:induction false} RolesOrdered(orders: Decisions, present: bool, n: nat)
    requires n <= 4
    ensures InGameOrder(RolesWith(orders, present, n))
    ensures forall i :: 0 <= i < |RolesWith(orders, present, n)| ==> Place(RolesWith(orders, present, n)[i]) < n
  {
    if n > 0 {
      RolesOrdered(orders, present, n - 1);
      assert Place(ALL_ROLES[n - 1]) == n - 1;
    }
  }

  /** Of the first n roles those with an order, or those without, are listed. */
  lemma {:induction false} RolesListed(orders: Decisions, present: bool, n: nat, i: nat)
    requires i < n <= 4
    ensures ALL_ROLES[i] in RolesWith(orders, present, n) <==> (ALL_ROLES[i] in orders) == present
  {
    if i == n - 1 {
      RolesOrdered(orders, present, n - 1);
      assert Place(ALL_ROLES[i]) == i;
    } else {
      RolesListed(orders, present, n - 1, i);
      assert Place(ALL_ROLES[i]) == i && Place(ALL_ROLES[n - 1]) == n - 1;
    }
  }

  /** A snapshot is about its room and week, repeats the orders, and lists every role once, as
      submitted if it has an order and as pending if not, both in the order of the game. */
  lemma SnapshotShows(d: WeeklyDecisions, role: Role)
    requires IsKnownRole(role)
    ensures var s := SnapshotOf(d);
            && s.roomId == d.roomId && s.week == d.week && s.orders == d.orders
            && (role in s.submitted <==> role in d.orders) && (role in s.pending <==> role !in d.orders)
            && InGameOrder(s.submitted) && InGameOrder(s.pending)
  {
    hide RolesWith;
    RolesOrdered(d.orders, true, 4);
    RolesOrdered(d.orders, false, 4);
    RolesListed(d.orders, true, 4, Place(role));
    RolesListed(d.orders, false, 4, Place(role));
    assert role == ALL_ROLES[Place(role)];
  }

  // ---------- Keys ----------

  function Digit(d: nat): char
    requires d < 10
  {
    ['0', '1', '2', '3', '4', '5', '6', '7', '8', '9'][d]
  }

  function NatText(n: nat): string {
    if n < 10 then [Digit(n)] else NatText(n / 10) + [Digit(n % 10)]
  }

  function IntText(n: int): string {
    if n < 0 then "-" + NatText(-n) else NatText(n)
  }

  function Key(roomId: string, week: int): string {
    roomId + ":" + IntText(week)
  }

  function DigitValue(c: char): nat {
    if '0' <= c <= '9' then (c as int - '0' as int) else 0
  }

  function NatValue(text: string): nat {
    if text == [] then 0 else 10 * NatValue(text[..|text| - 1]) + DigitValue(text[|text| - 1])
  }

  predicate AllDigits(text: string) {
    forall i :: 0 <= i < |text| ==> '0' <= text[i] <= '9'
  }

  lemma {:induction false} NatTextReadsBack(n: nat)
    ensures NatText(n) != [] && AllDigits(NatText(n)) && NatValue(NatText(n)) == n
  {
    if n < 10 {
      assert [Digit(n)][..0] == [];
    } else {
      NatTextReadsBack(n / 10);
      var text := NatText(n / 10);
      assert (text + [Digit(n % 10)])[..|text|] == text;
    }
  }

  lemma IntTextReadsBack(n: int)
    ensures n >= 0 ==> IntText(n) != [] && AllDigits(IntText(n)) && NatValue(IntText(n)) == n
    ensures n < 0 ==> IntText(n)[0] == '-' && AllDigits(IntText(n)[1..]) && NatValue(IntText(n)[1..]) == -n
    ensures forall i :: 0 <= i < |IntText(n)| ==> IntText(n)[i] != ':'
  {
    NatTextReadsBack(if n < 0 then -n else n);
    if n < 0 {
      assert IntText(n)[1..] == NatText(-n);
    }
  }

  /** The last colon of a key is the one Key put there. */
  lemma LastColon(roomId: string, text: string, other: string, tail: string)
    requires roomId + ":" + text == other + ":" + tail
    requires forall i :: 0 <= i < |text| ==> text[i] != ':'
    requires forall i :: 0 <= i < |tail| ==> tail[i] != ':'
    ensures roomId == other && text == tail
  {
    var key := roomId + ":" + text;
    assert key[|roomId|] == ':' && key[|other|] == ':';
    assert forall i :: |roomId| < i < |key| ==> key[i] == text[i - |roomId| - 1];
    assert forall i :: |other| < i < |key| ==> key[i] == tail[i - |other| - 1];
    assert roomId == key[..|roomId|] == other;
    assert text == key[|roomId| + 1..] == tail;
  }

  /** Different rooms or weeks never share a key, whatever characters a room id contains. */
  lemma KeyInjective(roomId: string, week: int, other: string, v: int)
    requires Key(roomId, week) == Key(other, v)
    ensures roomId == other && week == v
  {
    IntTextReadsBack(week);
    IntTextReadsBack(v);
    LastColon(roomId, IntText(week), other, IntText(v));
    assert (week < 0) == (IntText(week)[0] == '-');
    assert (v < 0) == (IntText(v)[0] == '-');
  }
}
