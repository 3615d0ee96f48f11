/** The offline context: connectivity, the offline-mode preference and the
    queue of scans waiting to be synced, mirrored into the key-value store.

    Every asynchronous handler is one atomic step. A handler that replaces
    the queue is followed by the persistence effect, which writes the
    current queue under the pending-scans key. */
module Offline {
  import opened Types
  import opened Storage

  datatype State = State(
    isOnline: bool,
    isOfflineMode: bool,
    pending: seq<ScanRecord>,
    store: Store)

  /** The stored snapshot is the encoding of the queue in memory. */
  predicate Persisted(s: State) {
    PendingScansKey in s.store && s.store[PendingScansKey] == ScanList(s.pending)
  }

  /** The persistence effect that runs whenever the queue changes. */
  function Persist(s: State): (r: State)
    ensures Persisted(r)
    ensures r.pending == s.pending && r.isOnline == s.isOnline && r.isOfflineMode == s.isOfflineMode
    ensures r.store == SetItem(s.store, PendingScansKey, ScanList(s.pending))
  {
    s.(store := SetItem(s.store, PendingScansKey, ScanList(s.pending)))
  }

  /** The queue read back at start-up: a stored snapshot that parses becomes
      the queue; a missing, empty or unparsable one leaves it empty, and the
      parse failure is swallowed. */
  function LoadPending(st: Store): (q: seq<ScanRecord>)
    ensures PendingScansKey in st && st[PendingScansKey].ScanList? ==> q == st[PendingScansKey].scans
    ensures !(PendingScansKey in st && st[PendingScansKey].ScanList?) ==> q == []
  {
    var stored := GetItem(st, PendingScansKey);
    if Truthy(stored) then
      match ParseScans(stored.value)
      case Some(q) => q
      case None => []
    else []
  }

  /** The stored preference is on only for the exact text "true". */
  function LoadOfflineMode(st: Store): bool {
    GetItem(st, OfflineModeKey) == Some(Text("true"))
  }

  /** Mounting the provider: connectivity comes from the host, the queue and
      the preference from the store. The store read precedes the effect's
      first write, and the effect then writes the loaded queue back, so an
      unparsable snapshot is replaced by the empty list. */
  function Mount(st: Store, hostOnline: bool): (s: State)
    ensures Persisted(s)
    ensures s.isOnline == hostOnline
    ensures s.isOfflineMode <==> OfflineModeKey in st && st[OfflineModeKey] == Text("true")
    ensures s.pending == LoadPending(st)
    ensures forall k :: k != PendingScansKey && k in st ==> k in s.store && s.store[k] == st[k]
  {
    Persist(State(hostOnline, LoadOfflineMode(st), LoadPending(st), st))
  }

  /** The host's `online` event. */
  function GoOnline(s: State): (r: State)
    ensures r.isOnline
    ensures r.pending == s.pending && r.store == s.store && r.isOfflineMode == s.isOfflineMode
  {
    s.(isOnline := true)
  }

  /** The host's `offline` event. */
  function GoOffline(s: State): (r: State)
    ensures !r.isOnline
    ensures r.pending == s.pending && r.store == s.store && r.isOfflineMode == s.isOfflineMode
  {
    s.(isOnline := false)
  }

  function BoolText(b: bool): string {
    if b then "true" else "false"
  }

  /** `toggleOfflineMode`: flips the preference and stores its new text. */
  function ToggleOfflineMode(s: State): (r: State)
    ensures r.isOfflineMode != s.isOfflineMode
    ensures LoadOfflineMode(r.store) == r.isOfflineMode
    ensures r.pending == s.pending && r.isOnline == s.isOnline
    ensures forall k :: k != OfflineModeKey && k in s.store ==> k in r.store && r.store[k] == s.store[k]
  {
    var newMode := !s.isOfflineMode;
    s.(isOfflineMode := newMode, store := SetItem(s.store, OfflineModeKey, Text(BoolText(newMode))))
  }

  /** `addPendingScan`: appends at the end, with no check for a record of
      the same id already queued. */
  function AddPendingScan(s: State, scan: ScanRecord): (r: State)
    ensures |r.pending| == |s.pending| + 1
    ensures r.pending[..|s.pending|] == s.pending && r.pending[|s.pending|] == scan
    ensures multiset(r.pending)[scan] == multiset(s.pending)[scan] + 1
    ensures Persisted(r)
    ensures r.isOnline == s.isOnline && r.isOfflineMode == s.isOfflineMode
    ensures forall k :: k != PendingScansKey && k in s.store ==> k in r.store && r.store[k] == s.store[k]
  {
    Persist(s.(pending := s.pending + [scan]))
  }

  /** The synchronous part of `clearPendingScans`: the queue becomes empty
      and the stored snapshot is removed. */
  function ClearHandler(s: State): (r: State)
    ensures r.pending == [] && PendingScansKey !in r.store
    ensures r.isOnline == s.isOnline && r.isOfflineMode == s.isOfflineMode
  {
    s.(pending := [], store := RemoveItem(s.store, PendingScansKey))
  }

  /** `clearPendingScans` followed by the persistence effect, which the new
      (empty) queue value triggers: the removed key is written back as the
      encoding of the empty list. */
  function ClearPendingScans(s: State): (r: State)
    ensures r.pending == []
    ensures Persisted(r) && LoadPending(r.store) == []
    ensures r.isOnline == s.isOnline && r.isOfflineMode == s.isOfflineMode
    ensures forall k :: k != PendingScansKey && k in s.store ==> k in r.store && r.store[k] == s.store[k]
  {
    Persist(ClearHandler(s))
  }

  datatype SyncOutcome = Skipped | Synced | Failed

  datatype SyncResult = SyncResult(state: State, outcome: SyncOutcome)

  /** `syncPendingData`. Offline or with nothing queued it returns at once.
      The code awaits only a simulated delay where a production build would
      submit the queue; `remoteOk` stands for that submission and is always
      true for the code as written. The queue is cleared only after the await,
      so a rejected submission would rethrow (`Failed`) with the queue as it
      was. */
  function SyncPendingData(s: State, remoteOk: bool): (r: SyncResult)
    ensures !s.isOnline || |s.pending| == 0 ==> r == SyncResult(s, Skipped)
    ensures s.isOnline && |s.pending| > 0 && remoteOk ==>
      r.outcome == Synced && r.state == ClearPendingScans(s)
    ensures s.isOnline && |s.pending| > 0 && !remoteOk ==> r == SyncResult(s, Failed)
  {
    if !s.isOnline || |s.pending| == 0 then SyncResult(s, Skipped)
    else if remoteOk then SyncResult(ClearPendingScans(s), Synced)
    else SyncResult(s, Failed)
  }

  /** All or nothing: after a sync the queue is either empty or exactly what
      it was, it is empty only if the sync went through or there was nothing
      to send, and an unchanged non-empty queue means the sync was skipped
      or failed. */
  lemma SyncAllOrNothing(s: State, remoteOk: bool)
    ensures var r := SyncPendingData(s, remoteOk);
      (r.state.pending == [] || r.state.pending == s.pending)
      && (r.outcome == Synced <==> s.isOnline && |s.pending| > 0 && remoteOk)
      && (r.outcome == Synced ==> r.state.pending == [])
      && (r.outcome != Synced ==> r.state == s)
  {
  }

  /** Every queue-changing operation and event keeps the stored snapshot
      equal to the encoding of the queue. */
  lemma SnapshotInvariant(s: State, scan: ScanRecord, remoteOk: bool)
    requires Persisted(s)
    ensures Persisted(AddPendingScan(s, scan))
    ensures Persisted(ClearPendingScans(s))
    ensures Persisted(SyncPendingData(s, remoteOk).state)
    ensures Persisted(ToggleOfflineMode(s))
    ensures Persisted(GoOnline(s)) && Persisted(GoOffline(s))
  {
    assert OfflineModeKey != PendingScansKey;
  }

  /** Durability: reloading from the store of any persisted state gives back
      the same queue, so a restart after `addPendingScan` loses nothing as
      long as the store accepted the write (a full store is not modelled). */
  lemma ReloadRestoresQueue(s: State, hostOnline: bool)
    requires Persisted(s)
    ensures Mount(s.store, hostOnline).pending == s.pending
    ensures Mount(s.store, hostOnline).isOfflineMode == LoadOfflineMode(s.store)
  {
    assert GetItem(s.store, PendingScansKey) == Some(ScanList(s.pending));
  }

  /** A corrupt snapshot is dropped without error and overwritten: the
      reloaded queue is empty and the store then holds its encoding. */
  lemma CorruptSnapshotIsReset(st: Store, text: string, hostOnline: bool)
    requires PendingScansKey in st && st[PendingScansKey] == Text(text)
    ensures Mount(st, hostOnline).pending == []
    ensures Mount(st, hostOnline).store[PendingScansKey] == ScanList([])
  {
  }

  /** Toggling twice restores the preference and the queue. */
  lemma ToggleTwice(s: State)
    ensures ToggleOfflineMode(ToggleOfflineMode(s)).isOfflineMode == s.isOfflineMode
    ensures ToggleOfflineMode(ToggleOfflineMode(s)).pending == s.pending
    ensures LoadOfflineMode(ToggleOfflineMode(ToggleOfflineMode(s)).store) == s.isOfflineMode
  {
  }

  /** The same scan added twice is queued twice. */
  lemma NoDeduplication(s: State, scan: ScanRecord)
    ensures AddPendingScan(AddPendingScan(s, scan), scan).pending == s.pending + [scan, scan]
  {
    var r := AddPendingScan(AddPendingScan(s, scan), scan).pending;
    assert r[..|s.pending|] == s.pending;
  }
}
