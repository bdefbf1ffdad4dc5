/** The state store: the in-memory `QueryState` (last successful run per
    query, last successful alert per query and channel) and its persistence
    to a JSON file through a temporary file.

    The file system is a map from paths to entries; the JSON serializer is a
    pair of functions supplied by the caller; the step of `SaveAsync` that
    fails, if any, is an input. */
module StateManager {
  import opened Base

  datatype QueryState = QueryState(lastRunTimes: map<string, Time>, lastAlertTimes: map<string, Time>)

  function EmptyState(): QueryState {
    QueryState(map[], map[])
  }

  /** The single key under which an alert of `alertType` for `queryName` is
      stored: the two names joined by a colon. */
  function AlertKey(queryName: string, alertType: string): string {
    queryName + ":" + alertType
  }

  function GetLastRun(st: QueryState, queryName: string): (r: Option<Time>)
    ensures r.Some? <==> queryName in st.lastRunTimes
    ensures r.Some? ==> r.value == st.lastRunTimes[queryName]
  {
    if queryName in st.lastRunTimes then Some(st.lastRunTimes[queryName]) else None
  }

  function SetLastRun(st: QueryState, queryName: string, t: Time): (r: QueryState)
    ensures GetLastRun(r, queryName) == Some(t)
    ensures forall n :: n != queryName ==> GetLastRun(r, n) == GetLastRun(st, n)
    ensures r.lastAlertTimes == st.lastAlertTimes
  {
    st.(lastRunTimes := st.lastRunTimes[queryName := t])
  }

  function GetLastAlert(st: QueryState, queryName: string, alertType: string): (r: Option<Time>)
    ensures r.Some? <==> AlertKey(queryName, alertType) in st.lastAlertTimes
    ensures r.Some? ==> r.value == st.lastAlertTimes[AlertKey(queryName, alertType)]
  {
    var key := AlertKey(queryName, alertType);
    if key in st.lastAlertTimes then Some(st.lastAlertTimes[key]) else None
  }

  function SetLastAlert(st: QueryState, queryName: string, alertType: string, t: Time): (r: QueryState)
    ensures GetLastAlert(r, queryName, alertType) == Some(t)
    ensures forall n, a :: AlertKey(n, a) != AlertKey(queryName, alertType) ==>
      GetLastAlert(r, n, a) == GetLastAlert(st, n, a)
    ensures r.lastRunTimes == st.lastRunTimes
  {
    st.(lastAlertTimes := st.lastAlertTimes[AlertKey(queryName, alertType) := t])
  }

  /** Two different (query, channel) pairs whose joined keys coincide share
      one entry: recording an alert for one is seen as an alert for the other. */
  lemma AlertKeysCanCollide(st: QueryState, t: Time)
    ensures ("a:b", "c") != ("a", "b:c")
    ensures GetLastAlert(SetLastAlert(st, "a:b", "c", t), "a", "b:c") == Some(t)
  {
    assert AlertKey("a:b", "c") == AlertKey("a", "b:c");
  }

  // ------------------------------------------------------------ persistence

  datatype FileEntry = Contents(text: string) | Unreadable(reason: string)

  datatype Disk = Disk(files: map<string, FileEntry>)

  /** What `JsonSerializer.Deserialize<QueryState>` makes of a text: a
      state, `null`, or an exception. */
  datatype Decoded = Parsed(state: QueryState) | ParsedNull | Malformed(reason: string)

  /** Where the state lives and how it is serialized. */
  datatype StateFile = StateFile(path: string, encode: QueryState -> string, decode: string -> Decoded)

  /** The temporary file beside the state file; never the state file itself. */
  function TempPath(f: StateFile): (r: string)
    ensures r != f.path
  {
    var r := f.path + ".tmp";
    assert |r| == |f.path| + 4;
    r
  }

  /** `LoadAsync`: a missing file keeps the in-memory state; an unreadable or
      unparsable file, or one that parses to `null`, resets it to empty.
      Nothing is raised. */
  function Load(mem: QueryState, disk: Disk, f: StateFile): (r: QueryState)
    ensures f.path !in disk.files ==> r == mem
    ensures f.path in disk.files && disk.files[f.path].Unreadable? ==> r == EmptyState()
    ensures f.path in disk.files && disk.files[f.path].Contents? ==>
      match f.decode(disk.files[f.path].text)
      case Parsed(s) => r == s
      case _ => r == EmptyState()
  {
    if f.path !in disk.files then mem
    else
      match disk.files[f.path]
      case Unreadable(_) => EmptyState()
      case Contents(text) =>
        match f.decode(text)
        case Parsed(s) => s
        case ParsedNull => EmptyState()
        case Malformed(_) => EmptyState()
  }

  /** The step of `SaveAsync` that throws, if any. */
  datatype SaveFault = NoFault | WriteFails(msg: string) | DeleteFails(msg: string) | MoveFails(msg: string)

  datatype SaveOutcome = SaveOutcome(disk: Disk, result: Result<Unit>)

  /** `SaveAsync`: write the serialized state to the temporary file, delete
      the state file if it exists, then move the temporary file into its
      place. A failing step is rethrown and the later steps do not happen. */
  function Save(mem: QueryState, disk: Disk, f: StateFile, fault: SaveFault): (r: SaveOutcome)
    ensures r.result.Ok? <==> fault.NoFault? || (fault.DeleteFails? && f.path !in disk.files)
    ensures r.result.Ok? ==> f.path in r.disk.files && r.disk.files[f.path] == Contents(f.encode(mem))
    ensures r.result.Ok? ==> TempPath(f) !in r.disk.files
    ensures forall p :: p != f.path && p != TempPath(f) ==>
      (p in r.disk.files <==> p in disk.files) && (p in disk.files ==> r.disk.files[p] == disk.files[p])
    ensures fault.WriteFails? ==> r.disk == disk
  {
    var tmp := TempPath(f);
    var json := f.encode(mem);
    if fault.WriteFails? then SaveOutcome(disk, Err(Raise(IO, fault.msg)))
    else
      var written := disk.files[tmp := Contents(json)];
      // the delete step runs only when the state file exists
      if f.path in written && fault.DeleteFails? then SaveOutcome(Disk(written), Err(Raise(IO, fault.msg)))
      else
        var deleted := written - {f.path};
        if fault.MoveFails? then SaveOutcome(Disk(deleted), Err(Raise(IO, fault.msg)))
        else SaveOutcome(Disk((deleted - {tmp})[f.path := Contents(json)]), Ok(Unit))
  }

  /** A state that survives serialization is restored by loading the file a
      successful save wrote, whatever the loader held before. */
  lemma SaveThenLoad(mem: QueryState, disk: Disk, f: StateFile, before: QueryState)
    requires f.decode(f.encode(mem)) == Parsed(mem)
    ensures Load(before, Save(mem, disk, f, NoFault).disk, f) == mem
  {
  }

  /** The replacement is not atomic: when the move fails after the old file
      was deleted, no state file is left, and the next start-up load keeps the
      empty initial state. */
  lemma FailedMoveLosesStateFile(mem: QueryState, disk: Disk, f: StateFile, msg: string)
    requires f.path in disk.files
    ensures Save(mem, disk, f, MoveFails(msg)).result.Err?
    ensures f.path !in Save(mem, disk, f, MoveFails(msg)).disk.files
    ensures Load(EmptyState(), Save(mem, disk, f, MoveFails(msg)).disk, f) == EmptyState()
  {
  }
}
