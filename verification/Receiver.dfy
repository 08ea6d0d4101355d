/** The receiver as one call runs it, which is one worker's uninterrupted run. */
module Receiver {
  import opened Basics
  import opened Webhooks

  /** The steps one delivery takes when nobody comes in between. */
  function Script(w: World, d: Delivery, authentic: bool, reading: Reading, commit: Commit): seq<Step> {
    if !authentic then [Deliver(0, d, false)]
    else if DedupKey(d) in w.claims then [Deliver(0, d, true)] + ([Claim(0)] + ([AnswerDuplicate(0, reading)] + []))
    else [Deliver(0, d, true)] + ([Claim(0)] + ([Normalize(0, reading)] + Recording(w, d, reading, commit)))
  }

  function Recording(w: World, d: Delivery, reading: Reading, commit: Commit): seq<Step> {
    if reading.Blows? then []
    else [Record(0, commit)] + ([Ending(w, d, reading, commit)] + [])
  }

  /** What follows the attempt to put the event on record. */
  function Ending(w: World, d: Delivery, reading: Reading, commit: Commit): Step {
    if commit.Fails? then Release(0)
    else if Stored(w.rows, LedgerKey(d)) then AnswerDuplicate(0, reading)
    else if commit.LandsUnheard? then Release(0)
    else Dispatch(0)
  }

  function Lone(claims: set<string>, rows: seq<Entry>, sent: seq<Dispatched>, answers: seq<Answer>, pc: Pc): World {
    World(claims, rows, sent, answers, [pc])
  }

  class DedupGate {
    var claims: set<string>

    constructor ()
      ensures claims == {}
    {
      claims := {};
    }

    method TryClaim(d: Delivery) returns (mine: bool)
      modifies this
      ensures mine <==> DedupKey(d) !in old(claims)
      ensures claims == old(claims) + {DedupKey(d)}
    {
      mine := DedupKey(d) !in claims;
      claims := claims + {DedupKey(d)};
    }

    method GiveBack(d: Delivery)
      modifies this
      ensures claims == old(claims) - {DedupKey(d)}
    {
      claims := claims - {DedupKey(d)};
    }
  }

  class WebhookReceiver {
    const gate: DedupGate
    var rows: seq<Entry>
    var sent: seq<Dispatched>

    constructor (gate: DedupGate)
      ensures this.gate == gate && rows == [] && sent == []
    {
      this.gate, rows, sent := gate, [], [];
    }

    function State(answers: seq<Answer>): World
      reads this, gate
    {
      Lone(gate.claims, rows, sent, answers, Idle)
    }

    method AlreadySeen(d: Delivery, reading: Reading) returns (r: Option<Answer>)
      ensures r == if reading.Blows? then None else Some(Duplicate(d, Find(rows, LedgerKey(d))))
    {
      var original := Find(rows, LedgerKey(d));
      if reading.Blows? {
        return None;
      }
      r := Some(Duplicate(d, original));
    }

    /** One delivery; `None` when the call raises. */
    method Receive(d: Delivery, authentic: bool, reading: Reading, commit: Commit) returns (r: Option<Answer>)
      modifies this, gate
      ensures var w := old(State([])); var script := Script(w, d, authentic, reading, commit);
              && Runs(w, script)
              && Exec(w, script) == State(if r.Some? then [r.value] else [])
    {
      ghost var w := State([]);
      ScriptRuns(w, d, authentic, reading, commit);
      if !authentic {
        return Some(Rejected(d));
      }
      var mine := gate.TryClaim(d);
      if !mine {
        r := AlreadySeen(d, reading);
        assert gate.claims == w.claims;
        return;
      }
      if reading.Blows? {
        return None;
      }
      if commit.Fails? {
        gate.GiveBack(d);
        assert gate.claims == w.claims + {DedupKey(d)} - {DedupKey(d)};
        return None;
      }
      if Stored(rows, LedgerKey(d)) {
        r := AlreadySeen(d, reading);
        return;
      }
      var row := |rows|;
      rows := rows + [Entry(LedgerKey(d), reading.Unreadable?)];
      if commit.LandsUnheard? {
        gate.GiveBack(d);
        assert gate.claims == w.claims + {DedupKey(d)} - {DedupKey(d)};
        return None;
      }
      sent := sent + [Dispatched(d, row)];
      r := Some(Accepted(d, row));
    }
  }

  // ------------------------------------------------------- the script's effect

  function Result(w: World, d: Delivery, authentic: bool, reading: Reading, commit: Commit): World {
    var key, held := LedgerKey(d), w.claims + {DedupKey(d)};
    if !authentic then w.(answers := w.answers + [Rejected(d)])
    else if DedupKey(d) in w.claims then
      if reading.Blows? then w else w.(answers := w.answers + [Duplicate(d, Find(w.rows, key))])
    else if reading.Blows? then w.(claims := held)
    else if commit.Fails? then w.(claims := held - {DedupKey(d)})
    else if Stored(w.rows, key) then w.(claims := held, answers := w.answers + [Duplicate(d, Find(w.rows, key))])
    else if commit.LandsUnheard? then
      w.(claims := held - {DedupKey(d)}, rows := w.rows + [Entry(key, reading.Unreadable?)])
    else
      w.(claims := held,
         rows := w.rows + [Entry(key, reading.Unreadable?)],
         sent := w.sent + [Dispatched(d, |w.rows|)],
         answers := w.answers + [Accepted(d, |w.rows|)])
  }

  lemma ScriptRuns(w: World, d: Delivery, authentic: bool, reading: Reading, commit: Commit)
    requires w.pcs == [Idle]
    ensures var script := Script(w, d, authentic, reading, commit);
            Runs(w, script) && Exec(w, script) == Result(w, d, authentic, reading, commit)
  {
    var s0 := Deliver(0, d, authentic);
    if !authentic {
      Prepend(w, s0, []);
      assert [s0] + [] == [s0];
    } else {
      var w1 := w.(pcs := [Arrived(d)]);
      assert Do(w, s0) == w1;
      if DedupKey(d) in w.claims {
        var w2 := w.(pcs := [Seen(d)]);
        assert Do(w1, Claim(0)) == w2;
        assert Do(w2, AnswerDuplicate(0, reading)) == Result(w, d, authentic, reading, commit);
        Prepend(w2, AnswerDuplicate(0, reading), []);
        Prepend(w1, Claim(0), [AnswerDuplicate(0, reading)] + []);
        Prepend(w, s0, [Claim(0)] + ([AnswerDuplicate(0, reading)] + []));
      } else {
        var w2 := w.(claims := w.claims + {DedupKey(d)}, pcs := [Claimed(d)]);
        assert Do(w1, Claim(0)) == w2;
        RecordingRuns(w, d, reading, commit);
        var rest := Recording(w, d, reading, commit);
        Prepend(w2, Normalize(0, reading), rest);
        Prepend(w1, Claim(0), [Normalize(0, reading)] + rest);
        Prepend(w, s0, [Claim(0)] + ([Normalize(0, reading)] + rest));
      }
    }
  }

  lemma RecordingRuns(w: World, d: Delivery, reading: Reading, commit: Commit)
    requires w.pcs == [Idle] && DedupKey(d) !in w.claims
    ensures var v := w.(claims := w.claims + {DedupKey(d)}, pcs := [Claimed(d)]);
            var next := Do(v, Normalize(0, reading)); var rest := Recording(w, d, reading, commit);
            Runs(next, rest) && Exec(next, rest) == Result(w, d, true, reading, commit)
  {
    var v := w.(claims := w.claims + {DedupKey(d)}, pcs := [Claimed(d)]);
    var next := Do(v, Normalize(0, reading));
    if reading.Blows? {
      assert next == Result(w, d, true, reading, commit);
    } else {
      var s, t := Record(0, commit), Ending(w, d, reading, commit);
      var after := Do(next, s);
      assert Do(after, t).pcs == [Idle];
      assert Do(after, t) == Result(w, d, true, reading, commit);
      Prepend(after, t, []);
      Prepend(next, s, [t] + []);
    }
  }
}
