# AWR session model

A Dafny model of the class `com.gvenzl.awr.AWR` of OraclePerfUtils. The class is a
singleton front over Oracle's Automatic Workload Repository (AWR). It binds a
database connection and records two snapshot ids: a begin id and an end id. It
caches the database identifier (DBID) and asks the database for a TEXT or HTML
report between the two snapshots.

The model has two modules:

- `AwrSpec` (`awr_spec.dfy`) describes the session as a value
  `Session(connected, beginSnapshot, endSnapshot, dbid)`. It has one function
  per operation. Each function returns a `Step`: the outcome, the new session,
  and the statements sent to the database, with their bound parameters.
  Lemmas follow these functions over any run of calls (`Run`).
- `Awr` (`awr.dfy`) holds the class `AWR`, with the source's fields. It also has
  `AwrSingleton`, which stands for the static field `instance` and
  `getInstance`. Each method of `AWR` changes its fields in place. Its contract
  matches the `AwrSpec` function of the same name exactly: same outcome, same new
  fields, and the same statements appended to the ghost log `Queries`.
  `Valid()` is the session invariant `Bracketed`: an end snapshot is set only
  when a begin snapshot is set.

The source's types and sentinels are kept:

- Snapshot ids are Java `int`, modelled as `Int32`.
- The DBID is Java `long`, modelled as `Int64`.
- `-1` means "unset" for all three fields.
- `conn` becomes `connected: bool`.

Each database round trip becomes a parameter: the database's `Reply`. A
`Reply` is one of three things:

- `Answer(value)`: the value was read and the statement closed normally.
- `AnswerThenFailed(value)`: the value was read, then closing the result set or
  the statement raised an SQLException.
- `Failed`: the driver raised an SQLException before any value was read.

Both kinds of driver failure are passed through as `DatabaseFailure`. The round
trips are:

- the id returned by the create-snapshot query;
- the DBID returned by the `v$database` query;
- the report rows, as `Option<string>`: `None` is an SQL NULL.

`getString` returns `null` for an SQL NULL row. Java's `+` then appends the text
`"null"`, so the model renders such a row as `"null"`.

Points worth noting in the source:

- `setDBID` checks the cached DBID *before* it checks the connection. A cached
  DBID is returned even with no connection.
- `getAWRReport` can send two statements: the DBID lookup and the report query.
- `setDBID` stores the DBID as soon as it is read, before it closes the result
  set and the statement. If closing fails, the call fails but the DBID stays
  cached. The DBID also stays cached when the lookup succeeds and the report
  query then fails.
- `createSnapshot` reads the new id before closing the statement. If closing
  fails, the id is dropped and no field changes.
- Snapshot ids are stored with the `-1` sentinel. So if the database returned
  `-1` as a new id, that id would read as "unset".

## Model

| member | source | states |
|---|---|---|
| AwrSpec.SetConnection | src/main/java/com/gvenzl/awr/AWR.java:36-38 | only the connection changes; snapshots and DBID are kept, and so is the invariant |
| AwrSpec.CreateSnapshot | src/main/java/com/gvenzl/awr/AWR.java:44-64 | with no connection it fails before sending anything and changes nothing; otherwise it sends one create-snapshot query; a driver failure, even one while closing, gives DatabaseFailure and changes nothing; the first id becomes begin and clears end, and later ids overwrite only end; connection and DBID never change |
| AwrSpec.SetDbid | src/main/java/com/gvenzl/awr/AWR.java:71-87 | a cached DBID is kept and nothing is sent, even with no connection; otherwise no connection fails with nothing sent; otherwise one DBID query is sent; a driver failure gives DatabaseFailure; a DBID that was read is cached even if closing then fails; nothing but the DBID ever changes |
| AwrSpec.ReportFunctionFor | src/main/java/com/gvenzl/awr/AWR.java:111-122 | HTML picks AWR_REPORT_HTML; every other mode picks AWR_REPORT_TEXT (both directions) |
| AwrSpec.GetAwrReport | src/main/java/com/gvenzl/awr/AWR.java:95-135 | fails with NoConnection, then NoBeginSnapshot, then NoEndSnapshot, each time sending nothing and changing nothing; otherwise the session is the one setDBID leaves, any failure is DatabaseFailure, and the report query is sent with the parameters (dbid, begin, end) only after the DBID is available; it succeeds exactly when the DBID is available and the rows arrive, and then returns ReportText of the rows; only the DBID can change |
| AwrSpec.RunKeepsBracketed | src/main/java/com/gvenzl/awr/AWR.java:57-63 | over any run of calls, an end snapshot is set only while a begin snapshot is set |
| AwrSpec.ReachableIsBracketed | src/main/java/com/gvenzl/awr/AWR.java:17-18 | every session reachable from a freshly constructed one satisfies the invariant |
| AwrSpec.BeginSnapshotStable | src/main/java/com/gvenzl/awr/AWR.java:57-63 | once the begin snapshot is set, no run of calls changes it |
| AwrSpec.LaterSnapshotsSetEnd | src/main/java/com/gvenzl/awr/AWR.java:61-63 | with begin set, a run of successful snapshots leaves end = the last id and changes nothing else, sending one create-snapshot query per call |
| AwrSpec.SnapshotBracketing | src/main/java/com/gvenzl/awr/AWR.java:57-63 | from no begin snapshot, the first id becomes begin; end stays unset after a single call and is the last id after two or more; nothing else changes; one create-snapshot query is sent per call |
| AwrSpec.SetDbidIdempotent | src/main/java/com/gvenzl/awr/AWR.java:73-75 | once a call has cached a DBID, even one that failed while closing, a second setDBID sends nothing and changes nothing |
| AwrSpec.CachedDbidKept | src/main/java/com/gvenzl/awr/AWR.java:73-75 | a cached DBID survives every run of calls, and no DBID query is sent |
| AwrSpec.DbidFetchedAtMostOnce | src/main/java/com/gvenzl/awr/AWR.java:73-84 | over any run of calls whose DBID lookups read a real DBID (closing may still fail), at most one DBID query is sent, and none if the DBID was already cached |
| AwrSpec.ModesShareParameters | src/main/java/com/gvenzl/awr/AWR.java:111-126 | TEXT and HTML send the same statements with the same (dbid, begin, end) and leave the same session; they differ only in the report function |
| AwrSpec.ReportTextAppend | src/main/java/com/gvenzl/awr/AWR.java:129-132 | adding a row appends that row's text and one newline to the report |
| AwrSpec.ReportTextLength | src/main/java/com/gvenzl/awr/AWR.java:129-132 | the report's length is the rows' total length plus one per row |
| AwrSpec.ReportTextLines | src/main/java/com/gvenzl/awr/AWR.java:129-132 | when no row contains a newline, splitting the report at newlines gives back exactly the rendered rows, in order |
| AwrSpec.ReportTextExamples | src/main/java/com/gvenzl/awr/AWR.java:129-132 | no rows give ""; rows "A","B" give "A\nB\n" |
| Awr.AWR.constructor | src/main/java/com/gvenzl/awr/AWR.java:15-23 | a new object has no connection and all three ids unset |
| Awr.AWR.SetConnection | src/main/java/com/gvenzl/awr/AWR.java:36-38 | the fields become AwrSpec.SetConnection of the old fields; no statement is sent |
| Awr.AWR.CreateSnapshot | src/main/java/com/gvenzl/awr/AWR.java:44-64 | outcome, new fields and statements sent are exactly those of AwrSpec.CreateSnapshot, and the invariant is kept |
| Awr.AWR.SetDbid | src/main/java/com/gvenzl/awr/AWR.java:71-87 | outcome, new fields and statements sent are exactly those of AwrSpec.SetDbid |
| Awr.AWR.GetAwrReport | src/main/java/com/gvenzl/awr/AWR.java:95-135 | outcome, new fields and statements sent are exactly those of AwrSpec.GetAwrReport; the row loop builds ReportText of the rows |
| Awr.AwrSingleton.constructor | src/main/java/com/gvenzl/awr/AWR.java:16 | the static instance starts out null |
| Awr.AwrSingleton.GetInstance | src/main/java/com/gvenzl/awr/AWR.java:29-34 | the first call creates a new session in its initial state and stores it; every later call returns the stored object; the object returned always satisfies the session invariant, so it can be used |
| Awr.GetInstanceTwice | src/main/java/com/gvenzl/awr/AWR.java:29-34 | two calls of getInstance return the same object |
| Awr.BracketAndReport | src/main/java/com/gvenzl/awr/AWR.java:44-134 | connect, then snapshots 100 and 105, then a TEXT report whose only row is "Report line 1": the report is "Report line 1\n", and the statements sent are two create-snapshot queries, one DBID lookup, and the text report query with the parameters (dbid, 100, 105) |

## Left out

- JDBC mechanics (`prepareStatement`, `executeQuery`, `ResultSet.next`/`getInt`/`getLong`/`getString`, `close`) are foreign calls. Their results are the `Reply` parameters.
- The `ResultSet` in `createSnapshot` is never closed. That is resource handling, with no effect on the fields.
- The SQL text and the fixed parameter `1` of the report functions are not modelled; their meaning belongs to Oracle's DBMS_WORKLOAD_REPOSITORY package. The report function is only a tag, `ReportFunction`.
- A driver failure in the middle of row iteration is not modelled as a separate step. The whole rows reply is `Failed`, and no partial report is returned, as in the source.
- Thread safety of the lazy singleton and of the unsynchronised fields is not modelled; the model is single-threaded.
- The `AWR_MODE` enum is not part of this model. It is modelled as the two-variant `Mode {TEXT, HTML}`, so a `null` mode, which would throw a NullPointerException at the `switch`, cannot occur.
- The `Connection` object is reduced to whether one is bound: the model cannot express two different connections.
- Java's protected constructor and the static field are modelled as a plain constructor and a separate `AwrSingleton` object, because Dafny has no static mutable fields.
