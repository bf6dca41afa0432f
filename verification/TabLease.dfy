/** The lease a browser tab takes on a player: a record with an owner and an expiry time in
    storage shared by all tabs, renewed by a heartbeat. Calls on the storage are atomic and
    times never decrease. Models the lock functions of internal/interface/http/static/app.js. */
module TabLease {
  import opened Common

  datatype Lock = Lock(tabId: string, expiresAt: int)

  const LOCK_PREFIX: string := "supply-chain-player-lock"
  const LOCK_TTL: int := 15000
  const REFRESH_INTERVAL: int := 5000

  /** There is no key while room or player is unknown. */
  function LockKey(roomId: string, playerId: string): Option<string> {
    if roomId == "" || playerId == "" then None else Some(LOCK_PREFIX + ":" + roomId + ":" + playerId)
  }

  // ---------- The record of one player ----------

  /** Another tab's lease refuses a tab as long as it lasts. */
  predicate Refuses(lock: Option<Lock>, tabId: string, now: int) {
    lock.Some? && lock.value.tabId != tabId && lock.value.expiresAt > now
  }

  function Ensured(lock: Option<Lock>, tabId: string, now: int): Option<Lock> {
    if Refuses(lock, tabId, now) then lock else Some(Lock(tabId, now + LOCK_TTL))
  }

  function Released(lock: Option<Lock>, tabId: string): Option<Lock> {
    if lock.None? || lock.value.tabId == tabId then None else lock
  }

  // ---------- The functions of a tab ----------

  class LocalStorage {
    var items: map<string, Lock>

    constructor ()
      ensures items == map[]
    {
      items := map[];
    }
  }

  function ItemAt(items: map<string, Lock>, key: string): Option<Lock> {
    if key in items then Some(items[key]) else None
  }

  function WithItem(items: map<string, Lock>, key: string, lock: Option<Lock>): map<string, Lock> {
    if lock.Some? then items[key := lock.value] else items - {key}
  }

  class PlayerTab {
    const tabId: string
    const storage: LocalStorage
    var roomId: string
    var playerId: string
    var lockHeartbeat: bool

    constructor (tabId: string, storage: LocalStorage)
      ensures this.tabId == tabId && this.storage == storage && !lockHeartbeat && roomId == "" && playerId == ""
    {
      this.tabId, this.storage := tabId, storage;
      this.roomId, this.playerId, this.lockHeartbeat := "", "", false;
    }

    function CurrentKey(): Option<string>
      reads this
    {
      LockKey(roomId, playerId)
    }

    /** Takes or renews the lease; refused while another tab's lease lasts. */
    method EnsurePlayerLock(now: int) returns (ok: bool)
      modifies storage
      ensures CurrentKey().None? ==> ok && storage.items == old(storage.items)
      ensures CurrentKey().Some? ==>
                var lock := ItemAt(old(storage.items), CurrentKey().value);
                && ok == !Refuses(lock, tabId, now)
                && storage.items == WithItem(old(storage.items), CurrentKey().value, Ensured(lock, tabId, now))
    {
      var key := CurrentKey();
      if key.None? {
        return true;
      }
      var currentLock := ItemAt(storage.items, key.value);
      if currentLock.Some? && currentLock.value.tabId != tabId && currentLock.value.expiresAt > now {
        assert storage.items[key.value := currentLock.value] == storage.items;
        return false;
      }
      storage.items := storage.items[key.value := Lock(tabId, now + LOCK_TTL)];
      ok := true;
    }

    /** Gives up the tab's own lease and leaves any other alone. */
    method ReleasePlayerLock()
      modifies storage
      ensures CurrentKey().None? ==> storage.items == old(storage.items)
      ensures CurrentKey().Some? ==>
                storage.items == WithItem(old(storage.items), CurrentKey().value,
                                          Released(ItemAt(old(storage.items), CurrentKey().value), tabId))
    {
      var key := CurrentKey();
      if key.None? {
        return;
      }
      var currentLock := ItemAt(storage.items, key.value);
      if currentLock.None? || currentLock.value.tabId == tabId {
        storage.items := storage.items - {key.value};
      } else {
        assert storage.items[key.value := currentLock.value] == storage.items;
      }
    }

    method StopLockHeartbeat()
      modifies this`lockHeartbeat
      ensures !lockHeartbeat
    {
      lockHeartbeat := false;
    }

    /** The timer runs exactly if the lease was obtained. */
    method StartLockHeartbeat(now: int) returns (ok: bool)
      modifies this`lockHeartbeat, storage
      ensures CurrentKey().None? ==> ok && !lockHeartbeat && storage.items == old(storage.items)
      ensures CurrentKey().Some? ==>
                var lock := ItemAt(old(storage.items), CurrentKey().value);
                && ok == lockHeartbeat == !Refuses(lock, tabId, now)
                && storage.items == WithItem(old(storage.items), CurrentKey().value, Ensured(lock, tabId, now))
    {
      StopLockHeartbeat();
      if roomId == "" || playerId == "" {
        return true;
      }
      ok := EnsurePlayerLock(now);
      if ok {
        lockHeartbeat := true;
      }
    }

    /** One beat of the timer; a refused renewal stops the timer and forgets the session. */
    method Beat(now: int) returns (ok: bool)
      modifies this`lockHeartbeat, this`roomId, this`playerId, storage
      ensures old(CurrentKey()).None? ==> ok && storage.items == old(storage.items)
      ensures old(CurrentKey()).Some? ==>
                var key := old(CurrentKey()).value; var lock := ItemAt(old(storage.items), key);
                && ok == !Refuses(lock, tabId, now)
                && storage.items == WithItem(old(storage.items), key, Ensured(lock, tabId, now))
      ensures ok ==> CurrentKey() == old(CurrentKey()) && lockHeartbeat == old(lockHeartbeat)
      ensures !ok ==> CurrentKey().None? && !lockHeartbeat
    {
      ok := EnsurePlayerLock(now);
      if !ok {
        StopLockHeartbeat();
        roomId, playerId := "", "";
      }
    }
  }

  // ---------- Runs of calls on one player's record ----------

  datatype Action = Ensure | Release

  /** A call of some tab at some time. */
  datatype Timed = Timed(now: int, tabId: string, action: Action)

  function LockNext(lock: Option<Lock>, call: Timed): Option<Lock> {
    match call.action
    case Ensure => Ensured(lock, call.tabId, call.now)
    case Release => Released(lock, call.tabId)
  }

  ghost function LockAfter(calls: seq<Timed>, n: nat): Option<Lock>
    requires n <= |calls|
  {
    if n == 0 then None else LockNext(LockAfter(calls, n - 1), calls[n - 1])
  }

  /** Call i is an ensurePlayerLock that succeeds. */
  ghost predicate Succeeds(calls: seq<Timed>, i: nat)
    requires i < |calls|
  {
    calls[i].action.Ensure? && !Refuses(LockAfter(calls, i), calls[i].tabId, calls[i].now)
  }

  ghost predicate Monotone(calls: seq<Timed>) {
    forall i, j :: 0 <= i <= j < |calls| ==> calls[i].now <= calls[j].now
  }

  /** Call i was the tab's last success before call j, and it has not released since. */
  ghost predicate LastSuccess(calls: seq<Timed>, i: nat, j: nat)
    requires i < j <= |calls|
  {
    && Succeeds(calls, i)
    && forall k :: i < k < j && calls[k].tabId == calls[i].tabId ==> calls[k].action.Ensure? && !Succeeds(calls, k)
  }

  lemma {:induction false} LeaseStands(calls: seq<Timed>, i: nat, j: nat)
    requires Monotone(calls) && i < j <= |calls| && LastSuccess(calls, i, j)
    requires calls[j - 1].now < calls[i].now + LOCK_TTL
    ensures LockAfter(calls, j) == Some(Lock(calls[i].tabId, calls[i].now + LOCK_TTL))
  {
    if i + 1 < j {
      LeaseStands(calls, i, j - 1);
    }
  }

  /** Mutual exclusion: after a tab's last success, and without a release of its own, no
      other tab succeeds before the TTL is over; the first call from then on does. */
  lemma LeaseExcludes(calls: seq<Timed>, i: nat, j: nat)
    requires Monotone(calls) && i < j < |calls| && LastSuccess(calls, i, j)
    requires calls[j].action.Ensure? && calls[j].tabId != calls[i].tabId
    ensures calls[j].now < calls[i].now + 15000 ==> !Succeeds(calls, j)
    ensures calls[j - 1].now < calls[i].now + 15000 <= calls[j].now ==> Succeeds(calls, j)
  {
    if calls[j - 1].now < calls[i].now + LOCK_TTL {
      LeaseStands(calls, i, j);
    }
  }

  lemma Obtained(lock: Option<Lock>, call: Timed)
    requires call.action.Ensure? && !Refuses(lock, call.tabId, call.now)
    ensures LockNext(lock, call) == Some(Lock(call.tabId, call.now + LOCK_TTL))
  {}

  /** The time of the tab's latest ensure among calls i to k - 1. */
  ghost function LastBeat(calls: seq<Timed>, i: nat, k: nat): int
    requires i < k <= |calls|
  {
    if k == i + 1 then calls[i].now
    else if calls[k - 1].tabId == calls[i].tabId && calls[k - 1].action.Ensure? then calls[k - 1].now
    else LastBeat(calls, i, k - 1)
  }

  /** From call i on the tab does not release, and beats come at most the interval apart. */
  ghost predicate Beating(calls: seq<Timed>, i: nat, j: nat, interval: int)
    requires i < j <= |calls|
  {
    forall k :: i < k < j ==>
      && !(calls[k].tabId == calls[i].tabId && calls[k].action.Release?)
      && calls[k].now <= LastBeat(calls, i, k) + interval
  }

  /** While a lease lasts, only its holder's calls change it. */
  lemma HeldStep(holder: string, expiresAt: int, call: Timed)
    requires call.now < expiresAt && !(call.tabId == holder && call.action.Release?)
    ensures LockNext(Some(Lock(holder, expiresAt)), call) ==
            Some(Lock(holder, if call.tabId == holder then call.now + LOCK_TTL else expiresAt))
  {}

  lemma {:induction false} BeatsHold(calls: seq<Timed>, i: nat, j: nat)
    requires Monotone(calls) && i < j <= |calls| && Succeeds(calls, i) && Beating(calls, i, j, LOCK_TTL - 1)
    ensures LockAfter(calls, j) == Some(Lock(calls[i].tabId, LastBeat(calls, i, j) + LOCK_TTL))
  {
    hide LockNext;
    if i + 1 < j {
      BeatsHold(calls, i, j - 1);
      HeldStep(calls[i].tabId, LastBeat(calls, i, j - 1) + LOCK_TTL, calls[j - 1]);
    } else {
      Obtained(LockAfter(calls, i), calls[i]);
    }
  }

  /** A heartbeat delivered on time keeps the lease for as long as it goes on: every beat
      succeeds and no other tab ever does. */
  lemma HeartbeatKeepsLease(calls: seq<Timed>, i: nat, j: nat)
    requires Monotone(calls) && i < j < |calls| && Succeeds(calls, i) && Beating(calls, i, j + 1, 5000)
    requires calls[j].action.Ensure?
    ensures Succeeds(calls, j) <==> calls[j].tabId == calls[i].tabId
  {
    BeatsHold(calls, i, j);
    assert calls[j].now <= LastBeat(calls, i, j) + REFRESH_INTERVAL;
  }

  // ---------- Releasing ----------

  /** A release gives up the tab's own lease, however old, and leaves another tab's alone. Once
      given up, the next call of any tab that asks for the lease gets it without waiting. */
  lemma ReleaseFrees(calls: seq<Timed>, j: nat)
    requires j < |calls| && calls[j].action.Release?
    ensures LockAfter(calls, j + 1).None? <==>
            LockAfter(calls, j).Some? ==> LockAfter(calls, j).value.tabId == calls[j].tabId
    ensures LockAfter(calls, j + 1).Some? ==> LockAfter(calls, j + 1) == LockAfter(calls, j)
    ensures LockAfter(calls, j + 1).None? && j + 1 < |calls| && calls[j + 1].action.Ensure? ==> Succeeds(calls, j + 1)
  {}

  /** In particular after a tab's last success, as long as that lease stands. */
  lemma OwnReleaseFrees(calls: seq<Timed>, i: nat, j: nat)
    requires Monotone(calls) && i < j && j + 1 < |calls| && LastSuccess(calls, i, j)
    requires calls[j - 1].now < calls[i].now + LOCK_TTL
    requires calls[j].action.Release? && calls[j].tabId == calls[i].tabId && calls[j + 1].action.Ensure?
    ensures Succeeds(calls, j + 1)
  {
    LeaseStands(calls, i, j);
    ReleaseFrees(calls, j);
  }

  // ---------- Keys ----------

  /** There is a key exactly when room and player are known. */
  lemma KeyExists(roomId: string, playerId: string)
    ensures LockKey(roomId, playerId).Some? <==> roomId != "" && playerId != ""
  {}

  ghost predicate NoColon(text: string) {
    ':' !in text
  }

  /** Two players never share a lease as long as player ids contain no colon, which holds of
      generated ids; room ids may contain any characters. */
  lemma KeysDiffer(roomId: string, playerId: string, other: string, otherId: string)
    requires LockKey(roomId, playerId).Some? && LockKey(roomId, playerId) == LockKey(other, otherId)
    requires NoColon(playerId) && NoColon(otherId)
    ensures roomId == other && playerId == otherId
  {
    var key := roomId + ":" + playerId;
    assert LockKey(roomId, playerId).value[|LOCK_PREFIX| + 1..] == key;
    assert LockKey(other, otherId).value[|LOCK_PREFIX| + 1..] == other + ":" + otherId;
    assert key == other + ":" + otherId;
    assert key[|roomId|] == ':' && key[|other|] == ':';
    assert forall i :: |roomId| < i < |key| ==> key[i] == playerId[i - |roomId| - 1];
    assert forall i :: |other| < i < |key| ==> key[i] == otherId[i - |other| - 1];
    assert roomId == key[..|roomId|] == other;
    assert playerId == key[|roomId| + 1..] == otherId;
  }

  /** With colons in player ids two players may share one. */
  lemma KeysMayMeet()
    ensures LockKey("a", "b:c") == LockKey("a:b", "c")
  {
    assert "a" + ":" + "b:c" == "a:b" + ":" + "c";
    assert LOCK_PREFIX + ":" + "a" + ":" + "b:c" == LOCK_PREFIX + ":" + ("a" + ":" + "b:c");
    assert LOCK_PREFIX + ":" + "a:b" + ":" + "c" == LOCK_PREFIX + ":" + ("a:b" + ":" + "c");
  }
}
