/**
  The class com.gvenzl.awr.AWR: a session object whose methods update its fields
  in place. Each database round trip is replaced by the database's reply, passed
  in as a parameter; the ghost field Queries records the statements sent.
  Every method is proved against the matching function of AwrSpec.
 */
module Awr {
  import opened AwrSpec

  class AWR {
    var connected: bool
    var beginSnapshot: Int32
    var endSnapshot: Int32
    var dbid: Int64

    /** The statements sent to the database so far, with their bound parameters. */
    ghost var Queries: seq<Query>

    /** The abstract value of the fields. */
    function State(): Session
      reads this
    {
      Session(connected, beginSnapshot, endSnapshot, dbid)
    }

    ghost predicate Valid()
      reads this
    {
      Bracketed(State())
    }

    /** The protected constructor: no connection, every id unset. */
    constructor ()
      ensures Valid() && State() == Initial() && Queries == []
    {
      connected := false;
      beginSnapshot := UnsetSnapshot;
      endSnapshot := UnsetSnapshot;
      dbid := UnsetDbid;
      Queries := [];
    }

    method SetConnection(connected: bool)
      requires Valid()
      modifies this
      ensures Valid()
      ensures State() == AwrSpec.SetConnection(old(State()), connected)
      ensures Queries == old(Queries)
    {
      this.connected := connected;
    }

    method CreateSnapshot(reply: Reply<Int32>) returns (outcome: Outcome<()>)
      requires Valid()
      modifies this
      ensures Valid()
      ensures var step := AwrSpec.CreateSnapshot(old(State()), reply);
              outcome == step.outcome && State() == step.after && Queries == old(Queries) + step.issued
    {
      if !connected {
        return Err(NoConnection);
      }
      Queries := Queries + [CreateSnapshotQuery];
      if reply.Failed? {
        return Err(DatabaseFailure);
      }
      var id := reply.value;
      if reply.AnswerThenFailed? {
        // closing the statement failed: the id read is dropped
        return Err(DatabaseFailure);
      }
      if beginSnapshot == UnsetSnapshot {
        beginSnapshot := id;
        endSnapshot := UnsetSnapshot;
      } else {
        endSnapshot := id;
      }
      return Ok(());
    }

    method SetDbid(reply: Reply<Int64>) returns (outcome: Outcome<()>)
      requires Valid()
      modifies this
      ensures Valid()
      ensures var step := AwrSpec.SetDbid(old(State()), reply);
              outcome == step.outcome && State() == step.after && Queries == old(Queries) + step.issued
    {
      if dbid != UnsetDbid {
        return Ok(());
      }
      if !connected {
        return Err(NoConnection);
      }
      Queries := Queries + [DbidQuery];
      if reply.Failed? {
        return Err(DatabaseFailure);
      }
      dbid := reply.value;
      if reply.AnswerThenFailed? {
        // closing the result set or the statement failed: the DBID stays cached
        return Err(DatabaseFailure);
      }
      return Ok(());
    }

    method GetAwrReport(mode: Mode, dbidReply: Reply<Int64>, rows: Reply<seq<Option<string>>>)
      returns (outcome: Outcome<string>)
      requires Valid()
      modifies this
      ensures Valid()
      ensures var step := AwrSpec.GetAwrReport(old(State()), mode, dbidReply, rows);
              outcome == step.outcome && State() == step.after && Queries == old(Queries) + step.issued
    {
      if !connected {
        return Err(NoConnection);
      }
      if beginSnapshot == UnsetSnapshot {
        return Err(NoBeginSnapshot);
      }
      if endSnapshot == UnsetSnapshot {
        return Err(NoEndSnapshot);
      }
      var fetched := SetDbid(dbidReply);
      if fetched.Err? {
        return Err(fetched.error);
      }
      Queries := Queries + [ReportQuery(ReportFunctionFor(mode), dbid, beginSnapshot, endSnapshot)];
      if rows.Failed? {
        return Err(DatabaseFailure);
      }
      var values := rows.value;
      var report := "";
      var i := 0;
      while i < |values|
        invariant 0 <= i <= |values|
        invariant report == ReportText(values[..i])
        modifies {}
      {
        ReportTextAppend(values[..i], values[i]);
        assert values[..i + 1] == values[..i] + [values[i]];
        report := report + Render(values[i]) + "\n";
        i := i + 1;
      }
      assert values[..i] == values;
      if rows.AnswerThenFailed? {
        // closing the statement failed: the report built is dropped
        return Err(DatabaseFailure);
      }
      return Ok(report);
    }
  }

  /** The static field `instance` of AWR and the lazy `getInstance`. */
  class AwrSingleton {
    var instance: AWR?

    /** The stored session, once there is one, keeps its invariant. */
    ghost predicate Valid()
      reads this, instance
    {
      instance != null ==> instance.Valid()
    }

    constructor ()
      ensures Valid() && instance == null
    {
      instance := null;
    }

    method GetInstance() returns (awr: AWR)
      requires Valid()
      modifies this
      ensures Valid() && awr.Valid()
      ensures old(instance) != null ==> awr == old(instance)
      ensures old(instance) == null ==> fresh(awr) && awr.State() == Initial() && awr.Queries == []
      ensures instance == awr
    {
      if instance == null {
        instance := new AWR();
      }
      return instance;
    }
  }

  /** Every call of `getInstance` after the first returns the object the first one returned. */
  method GetInstanceTwice(singleton: AwrSingleton) returns (first: AWR, second: AWR)
    requires singleton.Valid()
    modifies singleton
    ensures first == second && singleton.instance == first && first.Valid()
  {
    first := singleton.GetInstance();
    second := singleton.GetInstance();
  }

  /**
    A whole session: bind a connection, take snapshots 100 and 105 and ask for the
    text report, which the database answers with the single row "Report line 1".
   */
  method BracketAndReport(databaseId: Int64) returns (report: Outcome<string>, ghost sent: seq<Query>)
    ensures report == Ok("Report line 1\n")
    ensures sent == [CreateSnapshotQuery, CreateSnapshotQuery, DbidQuery,
                     ReportQuery(AwrReportText, databaseId, 100, 105)]
  {
    var awr := new AWR();
    awr.SetConnection(true);
    var begin := awr.CreateSnapshot(Answer(100));
    var end := awr.CreateSnapshot(Answer(105));
    assert awr.beginSnapshot == 100 && awr.endSnapshot == 105;
    var rows := [Some("Report line 1")];
    assert ReportText(rows) == "Report line 1\n" by {
      assert rows[1..] == [];
    }
    report := awr.GetAwrReport(TEXT, Answer(databaseId), Answer(rows));
    sent := awr.Queries;
  }
}
