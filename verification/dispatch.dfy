/**
 * Best-effort fan-out of an approved text to every forward channel.  Each
 * channel is tried once, in whatever order the set yields them; a failed
 * send is logged and the loop goes on.  Which sends fail is not something
 * the model can know, so it is an input: the set of channel ids whose send
 * raises.
 */
module Dispatch {
  /** One send attempt and whether it went through. */
  datatype Attempt = Attempt(channel: int, text: string, delivered: bool)

  /** The channels a report tried. */
  function Attempted(report: seq<Attempt>): set<int> {
    if report == [] then {} else Attempted(report[..|report| - 1]) + {report[|report| - 1].channel}
  }

  /** The channels a report reached. */
  function Delivered(report: seq<Attempt>): set<int> {
    if report == [] then {}
    else
      var last := report[|report| - 1];
      Delivered(report[..|report| - 1]) + if last.delivered then {last.channel} else {}
  }

  /** No channel is tried twice. */
  predicate Distinct(report: seq<Attempt>) {
    forall i, j :: 0 <= i < j < |report| ==> report[i].channel != report[j].channel
  }

  /** A channel is in `Attempted(report)` exactly when some attempt of the report is for it. */
  lemma {:induction false} AttemptedMember(report: seq<Attempt>, c: int)
    ensures c in Attempted(report) <==> exists i :: 0 <= i < |report| && report[i].channel == c
  {
    if report != [] {
      var init := report[..|report| - 1];
      AttemptedMember(init, c);
      if exists i :: 0 <= i < |init| && init[i].channel == c {
        var i :| 0 <= i < |init| && init[i].channel == c;
        assert report[i].channel == c;
      }
      if exists i :: 0 <= i < |report| && report[i].channel == c {
        var i :| 0 <= i < |report| && report[i].channel == c;
        if i < |init| {
          assert init[i].channel == c;
        }
      }
    }
  }

  /** Distinct attempts: as many attempts as channels tried. */
  lemma {:induction false} DistinctCount(report: seq<Attempt>)
    requires Distinct(report)
    ensures |Attempted(report)| == |report|
  {
    if report != [] {
      var init, last := report[..|report| - 1], report[|report| - 1];
      DistinctCount(init);
      AttemptedMember(init, last.channel);
    }
  }

  /**
   * `report` is a complete broadcast of `text` to `targets`: every target is
   * tried exactly once, with `text`, and a send fails exactly when the
   * oracle says so, independently of what happened to the other channels.
   */
  predicate Broadcasts(report: seq<Attempt>, targets: set<int>, text: string, failing: set<int>) {
    Attempted(report) == targets && Distinct(report) &&
    forall i :: 0 <= i < |report| ==> report[i].text == text && report[i].delivered == (report[i].channel !in failing)
  }

  /** Trying one more channel extends a complete broadcast to one more target. */
  lemma {:induction false} ExtendBroadcast(report: seq<Attempt>, done: set<int>, text: string, failing: set<int>, a: Attempt)
    requires Broadcasts(report, done, text, failing) && a.channel !in done
    requires a.text == text && a.delivered == (a.channel !in failing)
    ensures Broadcasts(report + [a], done + {a.channel}, text, failing)
  {
    var r := report + [a];
    assert r[..|r| - 1] == report;
    assert Attempted(r) == done + {a.channel};
    AttemptedMember(report, a.channel);
    assert Distinct(r) by {
      forall i, j | 0 <= i < j < |r|
        ensures r[i].channel != r[j].channel
      {
        if j < |report| {
          assert r[i] == report[i] && r[j] == report[j];
        } else {
          assert r[i] == report[i] && r[j] == a;
        }
      }
    }
    forall i | 0 <= i < |r|
      ensures r[i].text == text && r[i].delivered == (r[i].channel !in failing)
    {
      if i < |report| {
        assert r[i] == report[i];
      }
    }
  }

  /** Delivered channels are exactly the targets the oracle lets through. */
  lemma {:induction false} BroadcastDelivers(report: seq<Attempt>, targets: set<int>, text: string, failing: set<int>)
    requires Broadcasts(report, targets, text, failing)
    ensures Delivered(report) == targets - failing
  {
    if report != [] {
      var init := report[..|report| - 1];
      var last := report[|report| - 1];
      var rest := Attempted(init);
      BroadcastDelivers(init, rest, text, failing);
      AttemptedMember(init, last.channel);
    }
  }

  /** The per-channel try/except loop shared by `/allow` and the Allow button. */
  method Broadcast(targets: set<int>, text: string, failing: set<int>) returns (report: seq<Attempt>)
    ensures Broadcasts(report, targets, text, failing)
    ensures |report| == |targets|
    ensures Delivered(report) == targets - failing
  {
    report := [];
    var rest := targets;
    ghost var done: set<int> := {};
    while rest != {}
      invariant done !! rest && done + rest == targets
      invariant Broadcasts(report, done, text, failing)
      decreases rest
    {
      assert (forall c :: c !in rest) ==> rest == {};
      var channel :| channel in rest;
      var attempt := Attempt(channel, text, channel !in failing);
      ExtendBroadcast(report, done, text, failing, attempt);
      report := report + [attempt];
      done, rest := done + {channel}, rest - {channel};
    }
    DistinctCount(report);
    BroadcastDelivers(report, targets, text, failing);
  }
}
