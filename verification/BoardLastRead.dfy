/** A reader left alone gets the last completed value, whatever state the writer died in. */
module BoardLastRead {
  import opened BoardModel
  import opened BoardKeys
  import opened BoardValues
  import opened BoardReads
  import opened BoardGuarantees

  /** `n` steps of a read with nobody else running. */
  ghost function ReadOn(st: State, u: Reader, n: nat): Reader
    requires Sized(st) && ReaderShape(st, u)
    decreases n
  {
    if n == 0 || u.pc.RIdle? then u
    else
      ReaderShapeMove(st, u, ReadChoice.Step);
      ReadOn(st, ReaderNext(st, u, ReadChoice.Step), n - 1)
  }

  /** The reader is copying the last completed value of a fresh entry. */
  ghost predicate Onto(st: State, u: Reader, v: Value) {
    && Sized(st) && ReaderShape(st, u) && u.hit
    && var e, c := st.ents[u.i], st.ents[u.i].publish / 2;
       && c >= 1 && e.tenancy == u.ten && Stored(st.cfg, e.cells[c % CELLS_PER_KEY], v)
       && (Copying(u) ==> u.before / 2 == c && u.epoch == e.epoch && (!u.pc.RLen? ==> Copied(u, v)))
  }

  function Full(u: Reader, v: Value, count: nat, epoch: nat): Outcome {
    Outcome(u.i, u.key, u.room, v.len, if v.len <= u.room then Some(v.words) else None, v.stamp, count, epoch)
  }

  /** The read ended with value `v`, numbered `count`; its words only if they fit. */
  predicate Tells(u: Reader, end: Reader, v: Value, count: nat, epoch: nat) {
    && end.pc == RIdle && end.hit && end.i == u.i && end.key == u.key
    && end.got == Some(Full(u, v, count, epoch)) && end.ec == if v.len <= u.room then Success else TooLarge
  }

  lemma ReadOnce(st: State, u: Reader, n: nat)
    requires Sized(st) && ReaderShape(st, u) && !u.pc.RIdle? && n > 0
    ensures ReaderShape(st, ReaderNext(st, u, ReadChoice.Step))
    ensures ReadOn(st, u, n) == ReadOn(st, ReaderNext(st, u, ReadChoice.Step), n - 1)
  {
    ReaderShapeMove(st, u, ReadChoice.Step);
    hide ReaderNext, ReaderShape;
  }

  lemma StampOn(st: State, u: Reader, v: Value)
    requires Onto(st, u, v) && u.pc == RStamp
    ensures Onto(st, ReaderNext(st, u, ReadChoice.Step), v) && ReaderNext(st, u, ReadChoice.Step) == u.(pc := RPublish2, stamp := v.stamp)
  {
    ReaderShapeMove(st, u, ReadChoice.Step);
  }

  lemma Finish(st: State, u: Reader, v: Value)
    requires Onto(st, u, v) && u.pc == RStamp
    ensures var e := st.ents[u.i]; Tells(u, ReadOn(st, u, 3), v, e.publish / 2, e.epoch)
  {
    StampOn(st, u, v);
    var u1 := ReaderNext(st, u, ReadChoice.Step);
    var u2 := u1.(pc := RTenancy2, after := st.ents[u.i].publish);
    assert u2 == ReaderNext(st, u1, ReadChoice.Step);
    ReadOnce(st, u, 3);
    ReadOnce(st, u1, 2);
    ReadOnce(st, u2, 1);
    assert Sub64(u2.after, 2 * (u2.before / 2)) <= 1;
    assert ReaderNext(st, u2, ReadChoice.Step).got == Some(Answer(u2, u2.before / 2));
  }

  lemma WordOn(st: State, u: Reader, v: Value)
    requires Onto(st, u, v) && u.pc == RWords && u.len <= u.room
    ensures var u' := ReaderNext(st, u, ReadChoice.Step);
      && Onto(st, u', v) && u'.room == u.room
      && u' == if |u.buf| == |v.words| then u.(pc := RStamp) else u.(buf := v.words[..|u.buf| + 1])
  {
    ReaderShapeMove(st, u, ReadChoice.Step);
    var cell := st.ents[u.i].cells[(u.before / 2) % CELLS_PER_KEY];
    if |u.buf| < |v.words| {
      assert v.words[|u.buf|] == cell.words[..|v.words|][|u.buf|];
      assert u.buf + [v.words[|u.buf|]] == v.words[..|u.buf| + 1];
    }
  }

  lemma {:induction false} WordsOn(st: State, u: Reader, v: Value)
    requires Onto(st, u, v) && u.pc == RWords && u.len <= u.room
    ensures |u.buf| <= |v.words|
    ensures var e := st.ents[u.i];
            Tells(u, ReadOn(st, u, |v.words| - |u.buf| + 4), v, e.publish / 2, e.epoch)
    decreases |v.words| - |u.buf|
  {
    var u', m := ReaderNext(st, u, ReadChoice.Step), |v.words| - |u.buf| + 4;
    WordOn(st, u, v);
    ReadOnce(st, u, m);
    hide ReadOn, ReaderNext, Onto;
    if |u.buf| == |v.words| {
      Finish(st, u', v);
    } else {
      WordsOn(st, u', v);
    }
  }

  /** Steps a read takes to return a value of `words` words once it has checked the tenancy. */
  function StepsToRead(words: nat, fits: bool): nat { if fits then words + 6 else 5 }

  lemma LengthOn(st: State, u: Reader, v: Value)
    requires Onto(st, u, v) && u.pc == RPublish
    ensures var e := st.ents[u.i];
            var u1 := u.(pc := RLen, before := e.publish, epoch := e.epoch);
            var u2 := u1.(len := v.len, buf := [], pc := if v.len <= u.room then RWords else RStamp);
            && ReaderNext(st, u, ReadChoice.Step) == u1 && ReaderShape(st, u1)
            && ReaderNext(st, u1, ReadChoice.Step) == u2 && Onto(st, u2, v)
  {
    ReaderShapeMove(st, u, ReadChoice.Step);
    ReaderShapeMove(st, ReaderNext(st, u, ReadChoice.Step), ReadChoice.Step);
  }

  lemma ReadToEnd(st: State, u: Reader, v: Value)
    requires Onto(st, u, v) && u.pc == RPublish
    ensures var e := st.ents[u.i];
            Tells(u, ReadOn(st, u, StepsToRead(|v.words|, v.len <= u.room)), v, e.publish / 2, e.epoch)
  {
    var e, n := st.ents[u.i], StepsToRead(|v.words|, v.len <= u.room);
    var u1 := u.(pc := RLen, before := e.publish, epoch := e.epoch);
    var u2 := u1.(len := v.len, buf := [], pc := if v.len <= u.room then RWords else RStamp);
    LengthOn(st, u, v);
    ReadOnce(st, u, n);
    ReadOnce(st, u1, n - 1);
    hide ReadOn, ReaderNext, Onto;
    if v.len <= u.room { WordsOn(st, u2, v); } else { Finish(st, u2, v); }
  }

  /**
  In every reachable state a reader that has just checked the tenancy, and is then left alone,
  returns the last completed write in full, even if the writer after it died half way.
  */
  lemma LastValueReadable(states: seq<State>, steps: seq<Step>, n: nat, r: nat)
    requires Run(states, steps) && n <= |steps| && r < |states[n].readers|
    requires var st, u := states[n], states[n].readers[r];
             u.pc == RPublish && u.i < |st.ents| && u.ten == st.ents[u.i].tenancy && st.ents[u.i].publish >= 2
    ensures var st, u := states[n], states[n].readers[r];
            var e := st.ents[u.i];
            var x := Write(u.i, e.epoch, e.publish / 2);
            && Sized(st) && ReaderShape(st, u) && x in st.hist
            && Tells(u, ReadOn(st, u, StepsToRead(|st.hist[x].words|, st.hist[x].len <= u.room)), st.hist[x], x.w, x.epoch)
  {
    RunKeepsInv(states, steps, n);
    LastValueStands(states, steps, n, states[n].readers[r].i);
    var st, u := states[n], states[n].readers[r];
    assert Shape(st);
    hide Inv, ReadOn, Run;
    ReadToEnd(st, u, st.hist[Write(u.i, st.ents[u.i].epoch, st.ents[u.i].publish / 2)]);
  }
}
