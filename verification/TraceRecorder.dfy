/** The MMIO trace recorder, the driver that produces its traces, and the batches read back from them. */
module TraceRecorder {
  import opened EventTrace
  import D = Device

  const NPU_INST_FIFO := 0x00
  const NPU_STATUS := 0x04
  const NPU_RESET := 0x08
  const NPU_DRAM_BASE := 0x40
  const NPU_DRAM_END := 0x8000
  const NPU_SRF_BASE := 0x8000
  const NPU_SRF_END := 0x8100

  const STATUS_IDLE := 0x00
  const STATUS_DONE := 0x02

  datatype Kind = WrInst | RdStat | WrDram | WrSrf | Other

  datatype Op = Op(kind: Kind, value: nat)

  /** Instruction words of a trace, in order. */
  function Words(trace: seq<Op>): seq<nat>
  {
    if trace == [] then []
    else (if trace[0].kind == WrInst then [trace[0].value] else []) + Words(trace[1..])
  }

  function Flatten(batches: seq<seq<nat>>): seq<nat>
  {
    if batches == [] then [] else batches[0] + Flatten(batches[1..])
  }

  lemma {:induction false} WordsConcat(a: seq<Op>, b: seq<Op>)
    ensures Words(a + b) == Words(a) + Words(b)
  {
    if a == [] {
      assert a + b == b;
    } else {
      assert (a + b)[1..] == a[1..] + b;
      WordsConcat(a[1..], b);
      var first := if a[0].kind == WrInst then [a[0].value] else [];
      assert first + (Words(a[1..]) + Words(b)) == (first + Words(a[1..])) + Words(b);
    }
  }

  lemma {:induction false} WordsAppend(trace: seq<Op>, op: Op)
    ensures Words(trace + [op]) == if op.kind == WrInst then Words(trace) + [op.value] else Words(trace)
    ensures Words([]) == []
  {
    WordsConcat(trace, [op]);
  }

  // ---- Batch extraction ----

  predicate StatusFirst(trace: seq<Op>)
  {
    trace != [] && trace[0].kind == RdStat
  }

  /** Batches of the rest of a trace when the current batch already holds some words. */
  function BatchesFrom(trace: seq<Op>, current: seq<nat>): seq<seq<nat>>
    decreases |trace|
  {
    if trace == [] then (if current == [] then [] else [current])
    else if trace[0].kind == WrInst then BatchesFrom(trace[1..], current + [trace[0].value])
    else if trace[0].kind == RdStat && current != [] && StatusFirst(trace[1..])
    then [current] + BatchesFrom(trace[1..], [])
    else BatchesFrom(trace[1..], current)
  }

  /** No word is lost, added or moved, and no batch is empty. */
  lemma {:induction false} BatchesKeepWords(trace: seq<Op>, current: seq<nat>)
    ensures Flatten(BatchesFrom(trace, current)) == current + Words(trace)
    ensures forall i :: 0 <= i < |BatchesFrom(trace, current)| ==> BatchesFrom(trace, current)[i] != []
    decreases |trace|
  {
    hide StatusFirst;
    if trace == [] {
      assert current != [] ==> [current][1..] == [];
      assert Flatten([]) == [] && current + [] == current;
    } else if trace[0].kind == WrInst {
      BatchesKeepWords(trace[1..], current + [trace[0].value]);
      assert current + [trace[0].value] + Words(trace[1..]) == current + ([trace[0].value] + Words(trace[1..]));
    } else if trace[0].kind == RdStat && current != [] && StatusFirst(trace[1..]) {
      BatchesKeepWords(trace[1..], []);
      var rest := BatchesFrom(trace[1..], []);
      assert ([current] + rest)[1..] == rest;
      assert [] + Words(trace[1..]) == Words(trace[1..]) == Words(trace);
    } else {
      BatchesKeepWords(trace[1..], current);
      assert [] + Words(trace[1..]) == Words(trace[1..]) == Words(trace);
    }
  }

  // ---- What the driver writes ----

  /** One batch of the driver, and whatever reaches the recorder between its wait and the next send. */
  datatype Segment = Segment(words: seq<nat>, others: seq<Op>)

  /** Anything but an instruction: window writes, status polls, other accesses. */
  predicate NoInstruction(others: seq<Op>)
  {
    forall i :: 0 <= i < |others| ==> others[i].kind != WrInst
  }

  predicate Gapped(segs: seq<Segment>)
  {
    forall i :: 0 <= i < |segs| ==> NoInstruction(segs[i].others)
  }

  /** Two status reads in a row. */
  predicate PollsTwice(gap: seq<Op>)
  {
    exists i :: 0 <= i < |gap| - 1 && gap[i].kind == RdStat && gap[i + 1].kind == RdStat
  }

  /** Sending a word polls the status once and writes the word. */
  function Sends(words: seq<nat>, status: nat): seq<Op>
  {
    if words == [] then [] else [Op(RdStat, status), Op(WrInst, words[0])] + Sends(words[1..], STATUS_DONE)
  }

  function Render(segs: seq<Segment>, status: nat): seq<Op>
  {
    if segs == [] then []
    else
      Sends(segs[0].words, status) + ([Op(RdStat, STATUS_DONE)] + segs[0].others) + Render(segs[1..], STATUS_DONE)
  }

  /** Between two instructions of any trace a batch ends exactly when the gap polls the status twice in a row. */
  lemma {:induction false} GapDecides(gap: seq<Op>, rest: seq<Op>, current: seq<nat>)
    requires NoInstruction(gap) && (rest == [] || rest[0].kind == WrInst)
    ensures BatchesFrom(gap + rest, current)
         == if current != [] && PollsTwice(gap) then [current] + BatchesFrom(rest, []) else BatchesFrom(rest, current)
    decreases |gap|
  {
    if gap == [] {
      assert gap + rest == rest;
    } else {
      assert (gap + rest)[1..] == gap[1..] + rest;
      PollsOfRest(gap);
      GapDecides(gap[1..], rest, current);
      GapDecides(gap[1..], rest, []);
    }
  }

  lemma PollsOfRest(gap: seq<Op>)
    requires gap != []
    ensures PollsTwice(gap) <==> PollsTwice(gap[1..]) || (|gap| > 1 && gap[0].kind == RdStat && gap[1].kind == RdStat)
  {
    if PollsTwice(gap) {
      var i :| 0 <= i < |gap| - 1 && gap[i].kind == RdStat && gap[i + 1].kind == RdStat;
      if i > 0 { assert gap[1..][i - 1].kind == RdStat && gap[1..][i].kind == RdStat; }
    }
    if PollsTwice(gap[1..]) {
      var i :| 0 <= i < |gap[1..]| - 1 && gap[1..][i].kind == RdStat && gap[1..][i + 1].kind == RdStat;
      assert gap[i + 1].kind == RdStat && gap[i + 2].kind == RdStat;
    }
  }

  /** One poll between two instructions closes nothing. */
  lemma {:induction false} OneSend(word: nat, later: seq<Op>, current: seq<nat>)
    ensures BatchesFrom(([] + [Op(RdStat, STATUS_DONE)]) + ([Op(WrInst, word)] + later), current)
         == BatchesFrom(later, current + [word])
  {
    hide BatchesFrom;
    assert [] + [Op(RdStat, STATUS_DONE)] == [Op(RdStat, STATUS_DONE)];
    assert !PollsTwice([Op(RdStat, STATUS_DONE)]);
    GapDecides([Op(RdStat, STATUS_DONE)], [Op(WrInst, word)] + later, current);
    WriteStep(word, later, current);
  }

  /** The words after the first one of a batch join it: one poll between two writes. */
  lemma {:induction false} SendsCollected(words: seq<nat>, rest: seq<Op>, current: seq<nat>)
    requires current != []
    ensures BatchesFrom(Sends(words, STATUS_DONE) + rest, current) == BatchesFrom(rest, current + words)
    decreases |words|
  {
    hide BatchesFrom;
    if words == [] {
      NothingBefore(rest);
      assert current + words == current;
    } else {
      var later := Sends(words[1..], STATUS_DONE) + rest;
      SendsUnfold(words, STATUS_DONE, [], rest);
      NothingBefore(Sends(words, STATUS_DONE) + rest);
      OneSend(words[0], later, current);
      SendsCollected(words[1..], rest, current + [words[0]]);
      assert current + [words[0]] + words[1..] == current + words;
    }
  }

  /** The batches one can recover.  gap is what was recorded since the last instruction: the current batch closes
      before the next non-empty one when it polls the status twice in a row, the send's own poll included. */
  function Merged(segs: seq<Segment>, status: nat, gap: seq<Op>, current: seq<nat>): seq<seq<nat>>
    decreases |segs|
  {
    if segs == [] then (if current == [] then [] else [current])
    else
      var s, wait := segs[0], [Op(RdStat, STATUS_DONE)] + segs[0].others;
      if s.words == [] then Merged(segs[1..], STATUS_DONE, gap + wait, current)
      else if current != [] && PollsTwice(gap + [Op(RdStat, status)]) then
        [current] + Merged(segs[1..], STATUS_DONE, wait, s.words)
      else
        Merged(segs[1..], STATUS_DONE, wait, current + s.words)
  }

  /** Exactly what extraction gives on every driver trace, whatever but an instruction is recorded between batches. */
  lemma {:induction false} ExtractedIsMerged(segs: seq<Segment>, status: nat, gap: seq<Op>, current: seq<nat>)
    requires Gapped(segs) && NoInstruction(gap)
    ensures BatchesFrom(gap + Render(segs, status), current) == Merged(segs, status, gap, current)
    decreases |segs|
  {
    hide PollsTwice, BatchesFrom, Sends, NoInstruction, Gapped, Render;
    if segs == [] {
      NothingRendered(status);
      assert gap + [] == gap;
      GapDecides(gap, [], current);
      NothingLeft(current);
      NothingLeft([]);
    } else {
      var s, wait, later := segs[0], [Op(RdStat, STATUS_DONE)] + segs[0].others, Render(segs[1..], STATUS_DONE);
      GapsKept(segs, gap);
      if s.words == [] {
        RenderEmpty(segs, status, gap);
        ExtractedIsMerged(segs[1..], STATUS_DONE, gap + wait, current);
      } else {
        FirstWord(s.words, status, gap, wait + later, current);
        RenderUnfold(segs, status, gap);
        var seen := current != [] && PollsTwice(gap + [Op(RdStat, status)]);
        ExtractedIsMerged(segs[1..], STATUS_DONE, wait, if seen then s.words else current + s.words);
      }
    }
  }

  lemma GapsKept(segs: seq<Segment>, gap: seq<Op>)
    requires Gapped(segs) && segs != [] && NoInstruction(gap)
    ensures var wait := [Op(RdStat, STATUS_DONE)] + segs[0].others;
            Gapped(segs[1..]) && NoInstruction(wait) && NoInstruction(gap + wait)
  {
    assert NoInstruction(segs[0].others);
  }

  lemma {:induction false} NothingLeft(current: seq<nat>)
    ensures BatchesFrom([], current) == if current == [] then [] else [current]
  {
  }

  lemma {:induction false} NothingRendered(status: nat)
    ensures Render([], status) == []
  {
  }

  lemma {:induction false} RenderUnfold(segs: seq<Segment>, status: nat, gap: seq<Op>)
    requires segs != []
    ensures gap + Render(segs, status)
         == gap + (Sends(segs[0].words, status)
                   + (([Op(RdStat, STATUS_DONE)] + segs[0].others) + Render(segs[1..], STATUS_DONE)))
  {
    Associates(Sends(segs[0].words, status), [Op(RdStat, STATUS_DONE)] + segs[0].others,
               Render(segs[1..], STATUS_DONE));
  }

  lemma {:induction false} RenderEmpty(segs: seq<Segment>, status: nat, gap: seq<Op>)
    requires segs != [] && segs[0].words == []
    ensures gap + Render(segs, status)
         == (gap + ([Op(RdStat, STATUS_DONE)] + segs[0].others)) + Render(segs[1..], STATUS_DONE)
  {
    var wait, later := [Op(RdStat, STATUS_DONE)] + segs[0].others, Render(segs[1..], STATUS_DONE);
    hide Sends;
    NothingSent(status);
    NothingBefore(wait);
    Associates(gap, wait, later);
  }

  lemma NothingBefore(a: seq<Op>)
    ensures [] + a == a
  {
  }

  lemma {:induction false} NothingSent(status: nat)
    ensures Sends([], status) == []
  {
  }

  lemma FirstWord(words: seq<nat>, status: nat, gap: seq<Op>, rest: seq<Op>, current: seq<nat>)
    requires words != [] && NoInstruction(gap)
    ensures BatchesFrom(gap + (Sends(words, status) + rest), current)
         == if current != [] && PollsTwice(gap + [Op(RdStat, status)]) then [current] + BatchesFrom(rest, words)
            else BatchesFrom(rest, current + words)
  {
    hide PollsTwice, BatchesFrom, Sends, NoInstruction;
    SendsUnfold(words, status, gap, rest);
    PolledGap(gap, status);
    var write := [Op(WrInst, words[0])] + (Sends(words[1..], STATUS_DONE) + rest);
    GapDecides(gap + [Op(RdStat, status)], write, current);
    WholeBatch(words, rest, current);
    WholeBatch(words, rest, []);
    assert [] + words == words;
  }

  lemma SendsUnfold(words: seq<nat>, status: nat, gap: seq<Op>, rest: seq<Op>)
    requires words != []
    ensures gap + (Sends(words, status) + rest)
         == (gap + [Op(RdStat, status)]) + ([Op(WrInst, words[0])] + (Sends(words[1..], STATUS_DONE) + rest))
  {
    var poll, write, later := [Op(RdStat, status)], [Op(WrInst, words[0])], Sends(words[1..], STATUS_DONE);
    assert [Op(RdStat, status), Op(WrInst, words[0])] == poll + write;
    Associates(poll + write, later, rest);
    Associates(poll, write, later + rest);
    Associates(gap, poll, write + (later + rest));
  }

  lemma Associates(a: seq<Op>, b: seq<Op>, c: seq<Op>)
    ensures (a + b) + c == a + (b + c)
  {
  }

  lemma PolledGap(gap: seq<Op>, status: nat)
    requires NoInstruction(gap)
    ensures NoInstruction(gap + [Op(RdStat, status)])
  {
  }

  lemma {:induction false} WholeBatch(words: seq<nat>, rest: seq<Op>, current: seq<nat>)
    requires words != []
    ensures BatchesFrom([Op(WrInst, words[0])] + (Sends(words[1..], STATUS_DONE) + rest), current)
         == BatchesFrom(rest, current + words)
  {
    hide BatchesFrom, Sends;
    WriteStep(words[0], Sends(words[1..], STATUS_DONE) + rest, current);
    SendsCollected(words[1..], rest, current + [words[0]]);
    assert current + [words[0]] + words[1..] == current + words;
  }

  lemma {:induction false} WriteStep(word: nat, later: seq<Op>, current: seq<nat>)
    ensures BatchesFrom([Op(WrInst, word)] + later, current) == BatchesFrom(later, current + [word])
  {
    assert ([Op(WrInst, word)] + later)[1..] == later;
  }

  function Plain(batches: seq<seq<nat>>): (segs: seq<Segment>)
    ensures |segs| == |batches| && forall i :: 0 <= i < |segs| ==> segs[i] == Segment(batches[i], [])
  {
    seq(|batches|, i requires 0 <= i < |batches| => Segment(batches[i], []))
  }

  function NonEmpty(batches: seq<seq<nat>>): seq<seq<nat>>
  {
    if batches == [] then []
    else (if batches[0] == [] then [] else [batches[0]]) + NonEmpty(batches[1..])
  }

  function WordsOf(segs: seq<Segment>): (batches: seq<seq<nat>>)
    ensures |batches| == |segs|
  {
    seq(|segs|, i requires 0 <= i < |segs| => segs[i].words)
  }

  // ---- When batches come back ----

  /** What is recorded from a position on before batch j sends: the waits and gaps of empty batches, and the poll. */
  function Lead(segs: seq<Segment>, j: nat): seq<Op>
    requires j <= |segs|
  {
    if j == 0 then [Op(RdStat, STATUS_DONE)]
    else [Op(RdStat, STATUS_DONE)] + segs[0].others + Lead(segs[1..], j - 1)
  }

  /** Batch j is the next one that is not empty. */
  predicate NextFilled(segs: seq<Segment>, j: nat)
  {
    j < |segs| && segs[j].words != [] && forall k :: 0 <= k < j ==> segs[k].words == []
  }

  /** From the wait of s to the poll of the next non-empty batch two status reads in a row are recorded. */
  ghost predicate SeenAfter(s: Segment, rest: seq<Segment>)
  {
    forall j: nat :: NextFilled(rest, j) ==> PollsTwice([Op(RdStat, STATUS_DONE)] + s.others + Lead(rest, j))
  }

  ghost predicate SeenFrom(segs: seq<Segment>, i: nat)
    requires i < |segs|
  {
    segs[i].words != [] ==> SeenAfter(segs[i], segs[i + 1..])
  }

  /** Every boundary between a non-empty batch and the next is seen. */
  ghost predicate AllSeen(segs: seq<Segment>)
  {
    forall i: nat :: i < |segs| ==> SeenFrom(segs, i)
  }

  /** The same from inside a run of segments: gap since the last instruction, and whether there was one. */
  predicate Seen(segs: seq<Segment>, gap: seq<Op>, started: bool)
    decreases |segs|
  {
    if segs == [] then true
    else
      var wait := [Op(RdStat, STATUS_DONE)] + segs[0].others;
      if segs[0].words == [] then Seen(segs[1..], gap + wait, started)
      else (started ==> PollsTwice(gap + [Op(RdStat, STATUS_DONE)])) && Seen(segs[1..], wait, true)
  }

  lemma PollValue(gap: seq<Op>, a: nat, b: nat)
    ensures PollsTwice(gap + [Op(RdStat, a)]) ==> PollsTwice(gap + [Op(RdStat, b)])
  {
    var x, y := gap + [Op(RdStat, a)], gap + [Op(RdStat, b)];
    if PollsTwice(x) {
      var i :| 0 <= i < |x| - 1 && x[i].kind == RdStat && x[i + 1].kind == RdStat;
      assert y[i].kind == RdStat && y[i + 1].kind == RdStat;
    }
  }

  /** Merging never gives more batches than were sent, and gives them all exactly when every boundary is seen. */
  lemma {:induction false} MergedCount(segs: seq<Segment>, status: nat, gap: seq<Op>, current: seq<nat>)
    ensures var sent := (if current == [] then [] else [current]) + NonEmpty(WordsOf(segs));
            |Merged(segs, status, gap, current)| <= |sent| &&
            (|Merged(segs, status, gap, current)| == |sent| <==> Seen(segs, gap, current != [])) &&
            (Seen(segs, gap, current != []) ==> Merged(segs, status, gap, current) == sent)
    decreases |segs|
  {
    hide PollsTwice;
    if segs == [] {
      assert WordsOf(segs) == [];
    } else {
      var s, wait := segs[0], [Op(RdStat, STATUS_DONE)] + segs[0].others;
      assert WordsOf(segs)[1..] == WordsOf(segs[1..]) && WordsOf(segs)[0] == s.words;
      PollValue(gap, status, STATUS_DONE);
      PollValue(gap, STATUS_DONE, status);
      if s.words == [] {
        MergedCount(segs[1..], STATUS_DONE, gap + wait, current);
        assert [] + NonEmpty(WordsOf(segs[1..])) == NonEmpty(WordsOf(segs[1..]));
      } else {
        MergedCount(segs[1..], STATUS_DONE, wait, s.words);
        MergedCount(segs[1..], STATUS_DONE, wait, current + s.words);
        assert [] + s.words == s.words;
        var rest := NonEmpty(WordsOf(segs[1..]));
        assert [current] + ([s.words] + rest) == ([current] + [s.words]) + rest;
      }
    }
  }

  /** Step by step and position by position the condition is the same. */
  lemma {:induction false} SeenIsAllSeen(segs: seq<Segment>, gap: seq<Op>, started: bool)
    ensures Seen(segs, gap, started) <==>
      AllSeen(segs) && (started ==> forall j: nat :: NextFilled(segs, j) ==> PollsTwice(gap + Lead(segs, j)))
    decreases |segs|
  {
    hide PollsTwice;
    if segs != [] {
      var wait := [Op(RdStat, STATUS_DONE)] + segs[0].others;
      AllSeenRest(segs);
      if segs[0].words == [] {
        SeenIsAllSeen(segs[1..], gap + wait, started);
        LeadShifts(segs, gap);
      } else {
        SeenIsAllSeen(segs[1..], wait, true);
        FilledFirst(segs, gap);
      }
    }
  }

  lemma {:induction false} FilledFirst(segs: seq<Segment>, gap: seq<Op>)
    requires segs != [] && segs[0].words != []
    ensures forall j: nat :: NextFilled(segs, j) <==> j == 0
    ensures Lead(segs, 0) == [Op(RdStat, STATUS_DONE)]
  {
  }

  lemma {:induction false} LeadShifts(segs: seq<Segment>, gap: seq<Op>)
    requires segs != [] && segs[0].words == []
    ensures (forall j: nat :: NextFilled(segs, j) ==> PollsTwice(gap + Lead(segs, j)))
       <==> (forall j: nat :: NextFilled(segs[1..], j) ==>
              PollsTwice(gap + ([Op(RdStat, STATUS_DONE)] + segs[0].others) + Lead(segs[1..], j)))
  {
    hide PollsTwice;
    var wait := [Op(RdStat, STATUS_DONE)] + segs[0].others;
    forall j: nat | NextFilled(segs[1..], j)
      ensures NextFilled(segs, j + 1) && gap + Lead(segs, j + 1) == gap + wait + Lead(segs[1..], j)
    {
      forall k | 0 <= k < j + 1 ensures segs[k].words == [] { if k > 0 { assert segs[1..][k - 1].words == []; } }
    }
    forall j: nat | NextFilled(segs, j)
      ensures j > 0 && NextFilled(segs[1..], j - 1) && gap + Lead(segs, j) == gap + wait + Lead(segs[1..], j - 1)
    {
    }
  }

  lemma AllSeenRest(segs: seq<Segment>)
    requires segs != []
    ensures AllSeen(segs) <==> AllSeen(segs[1..]) && (segs[0].words != [] ==> SeenAfter(segs[0], segs[1..]))
  {
    hide SeenAfter;
    forall i: nat | i < |segs[1..]| ensures SeenFrom(segs[1..], i) <==> SeenFrom(segs, i + 1) {
      assert segs[1..][i] == segs[i + 1] && segs[1..][i + 1..] == segs[i + 2..];
    }
    assert SeenFrom(segs, 0) <==> (segs[0].words != [] ==> SeenAfter(segs[0], segs[1..]));
    if AllSeen(segs[1..]) && SeenFrom(segs, 0) {
      forall i: nat | i < |segs| ensures SeenFrom(segs, i) { if i > 0 { assert SeenFrom(segs[1..], i - 1); } }
    }
  }

  /** The non-empty batches come back if and only if two status reads in a row are recorded between each of them and
      the next. */
  lemma {:induction false} ExtractedIffAllSeen(segs: seq<Segment>, status: nat)
    requires Gapped(segs)
    ensures BatchesFrom(Render(segs, status), []) == NonEmpty(WordsOf(segs)) <==> AllSeen(segs)
  {
    hide BatchesFrom, Render, AllSeen, Seen;
    ExtractedIsMerged(segs, status, [], []);
    assert [] + Render(segs, status) == Render(segs, status);
    MergedCount(segs, status, [], []);
    assert [] + NonEmpty(WordsOf(segs)) == NonEmpty(WordsOf(segs));
    SeenIsAllSeen(segs, [], false);
  }

  predicate AllFilled(segs: seq<Segment>)
  {
    forall i :: 0 <= i < |segs| ==> segs[i].words != []
  }

  /** The wait of batch i, its gap and the next poll hold two status reads in a row. */
  predicate PolledAt(segs: seq<Segment>, i: nat)
    requires i < |segs|
  {
    PollsTwice([Op(RdStat, STATUS_DONE)] + segs[i].others + [Op(RdStat, STATUS_DONE)])
  }

  /** With no batch empty, the condition is one on each gap by itself. */
  lemma {:induction false} ExtractedIffPolledTwice(segs: seq<Segment>, status: nat)
    requires Gapped(segs) && AllFilled(segs)
    ensures BatchesFrom(Render(segs, status), []) == WordsOf(segs)
       <==> forall i: nat :: i < |segs| - 1 ==> PolledAt(segs, i)
  {
    hide BatchesFrom, Render, PollsTwice, Gapped;
    ExtractedIffAllSeen(segs, status);
    AllNonEmpty(WordsOf(segs));
    forall i: nat | i < |segs| ensures SeenFrom(segs, i) <==> (i < |segs| - 1 ==> PolledAt(segs, i)) {
      if i < |segs| - 1 { FilledFirst(segs[i + 1..], []); }
    }
    if forall i: nat :: i < |segs| - 1 ==> PolledAt(segs, i) {
      forall i: nat | i < |segs| ensures SeenFrom(segs, i) { }
    }
    if AllSeen(segs) {
      forall i: nat | i < |segs| - 1 ensures PolledAt(segs, i) { assert SeenFrom(segs, i); }
    }
  }

  /** Window writes and other accesses: neither an instruction nor a status read. */
  predicate Quiet(others: seq<Op>)
  {
    forall i :: 0 <= i < |others| ==> others[i].kind != WrInst && others[i].kind != RdStat
  }

  predicate NoGaps(segs: seq<Segment>)
  {
    forall i :: 0 <= i < |segs| - 1 ==> segs[i].others == []
  }

  lemma QuietPolls(others: seq<Op>)
    requires Quiet(others)
    ensures PollsTwice([Op(RdStat, STATUS_DONE)] + others + [Op(RdStat, STATUS_DONE)]) <==> others == []
  {
    var gap := [Op(RdStat, STATUS_DONE)] + others + [Op(RdStat, STATUS_DONE)];
    if others == [] {
      assert gap[0].kind == RdStat && gap[1].kind == RdStat;
    } else {
      forall i | 0 < i < |gap| - 1 ensures gap[i].kind != RdStat { assert gap[i] == others[i - 1]; }
    }
  }

  /** When no status is polled in the gaps, non-empty batches come back if and only if there are no gaps. */
  lemma {:induction false} ExtractedIffNoGaps(segs: seq<Segment>, status: nat)
    requires AllFilled(segs) && forall i :: 0 <= i < |segs| ==> Quiet(segs[i].others)
    ensures BatchesFrom(Render(segs, status), []) == WordsOf(segs) <==> NoGaps(segs)
  {
    hide BatchesFrom, Render, PollsTwice;
    assert Gapped(segs);
    ExtractedIffPolledTwice(segs, status);
    forall i: nat | i < |segs| ensures PolledAt(segs, i) <==> segs[i].others == [] { QuietPolls(segs[i].others); }
  }

  /** Extraction inverts the driver: batches sent back to back come out as they went in. */
  lemma {:induction false} ExtractInvertsDriver(batches: seq<seq<nat>>, status: nat)
    ensures BatchesFrom(Render(Plain(batches), status), []) == NonEmpty(batches)
  {
    hide BatchesFrom, Render, PollsTwice;
    var segs := Plain(batches);
    ExtractedIffAllSeen(segs, status);
    assert WordsOf(segs) == batches;
    forall i: nat | i < |segs| ensures SeenFrom(segs, i) {
      var rest := segs[i + 1..];
      forall j: nat | NextFilled(rest, j)
        ensures PollsTwice([Op(RdStat, STATUS_DONE)] + segs[i].others + Lead(rest, j))
      {
        TwoInFront(rest, j);
        assert [Op(RdStat, STATUS_DONE)] + segs[i].others == [Op(RdStat, STATUS_DONE)];
      }
    }
  }

  lemma {:induction false} TwoInFront(segs: seq<Segment>, j: nat)
    requires j <= |segs|
    ensures PollsTwice([Op(RdStat, STATUS_DONE)] + Lead(segs, j))
  {
    var gap := [Op(RdStat, STATUS_DONE)] + Lead(segs, j);
    assert gap[0].kind == RdStat && gap[1].kind == RdStat;
  }

  /** A window write between two batches hides the boundary. */
  lemma {:induction false} WindowWriteMergesBatches(a: nat, b: nat, off: nat, status: nat)
    ensures BatchesFrom(Render([Segment([a], [Op(WrDram, off)]), Segment([b], [])], status), []) == [[a, b]]
  {
    TwoSegments(a, b, [Op(WrDram, off)], status);
    assert Quiet([Op(WrDram, off)]);
    QuietPolls([Op(WrDram, off)]);
  }

  /** With a status poll after the write the boundary is seen again. */
  lemma {:induction false} PollRestoresBoundary(a: nat, b: nat, off: nat, status: nat)
    ensures BatchesFrom(Render([Segment([a], [Op(WrDram, off), Op(RdStat, STATUS_DONE)]), Segment([b], [])],
                               status), [])
         == [[a], [b]]
  {
    var others := [Op(WrDram, off), Op(RdStat, STATUS_DONE)];
    var gap := [Op(RdStat, STATUS_DONE)] + others + [Op(RdStat, STATUS_DONE)];
    assert gap[2].kind == RdStat && gap[3].kind == RdStat;
    TwoSegments(a, b, others, status);
  }

  lemma {:induction false} TwoSegments(a: nat, b: nat, others: seq<Op>, status: nat)
    requires NoInstruction(others)
    ensures BatchesFrom(Render([Segment([a], others), Segment([b], [])], status), [])
         == if PollsTwice([Op(RdStat, STATUS_DONE)] + others + [Op(RdStat, STATUS_DONE)]) then [[a], [b]] else [[a, b]]
  {
    hide BatchesFrom, Render, PollsTwice;
    var second := [Segment([b], [])];
    var segs := [Segment([a], others)] + second;
    assert segs == [Segment([a], others), Segment([b], [])];
    ExtractedIsMerged(segs, status, [], []);
    assert [] + Render(segs, status) == Render(segs, status);
    var wait := [Op(RdStat, STATUS_DONE)] + others;
    assert segs[1..] == second && second[1..] == [];
    assert [] + [a] == [a] && [a] + [b] == [a, b];
    assert Merged(segs, status, [], []) == Merged(second, STATUS_DONE, wait, [a]);
  }

  // ---- The recorder ----

  class TraceRecorder {
    var fullTrace: seq<Op>
    var instTrace: seq<nat>
    var dramWrites: seq<(nat, nat)>
    var srfWrites: seq<(nat, nat)>
    var statusReads: nat
    var instWrites: nat
    var otherAccesses: nat
    /** The status register of the wrapped device. */
    var status: nat

    ghost predicate Valid()
      reads this
    {
      instTrace == Words(fullTrace) && (status == STATUS_IDLE || status == STATUS_DONE)
    }

    constructor ()
      ensures Valid() && fullTrace == [] && status == STATUS_IDLE
    {
      fullTrace, instTrace, dramWrites, srfWrites := [], [], [], [];
      statusReads, instWrites, otherAccesses, status := 0, 0, 0, STATUS_IDLE;
    }

    /** A load; inner is what the wrapped device answers off the status register. */
    method Load(addr: nat, inner: nat) returns (result: nat)
      requires Valid()
      modifies `fullTrace, `statusReads, `otherAccesses
      ensures Valid()
      ensures result == if addr == NPU_STATUS then status else inner
      ensures fullTrace == old(fullTrace) + [if addr == NPU_STATUS then Op(RdStat, status) else Op(Other, 0)]
      ensures statusReads == old(statusReads) + if addr == NPU_STATUS then 1 else 0
      ensures otherAccesses == old(otherAccesses) + if addr == NPU_STATUS then 0 else 1
    {
      if addr == NPU_STATUS {
        result := status;
        WordsAppend(fullTrace, Op(RdStat, result));
        fullTrace := fullTrace + [Op(RdStat, result)];
        statusReads := statusReads + 1;
      } else {
        result := inner;
        WordsAppend(fullTrace, Op(Other, 0));
        fullTrace := fullTrace + [Op(Other, 0)];
        otherAccesses := otherAccesses + 1;
      }
    }

    /** What a store appends to the trace. */
    function StoreOp(addr: nat, value: nat): Op
    {
      if addr == NPU_INST_FIFO then Op(WrInst, value)
      else if addr == NPU_RESET then Op(Other, 0)
      else if NPU_DRAM_BASE <= addr < NPU_DRAM_END then Op(WrDram, (addr - NPU_DRAM_BASE) / 4)
      else if NPU_SRF_BASE <= addr < NPU_SRF_END then Op(WrSrf, (addr - NPU_SRF_BASE) / 4)
      else Op(Other, 0)
    }

    method Store(addr: nat, value: nat)
      requires Valid()
      modifies this
      ensures Valid()
      ensures fullTrace == (if addr == NPU_RESET && value != 0 then [] else old(fullTrace)) + [StoreOp(addr, value)]
      ensures status == if addr == NPU_INST_FIFO then STATUS_DONE
                        else if addr == NPU_RESET && value != 0 then STATUS_IDLE else old(status)
      ensures dramWrites == old(dramWrites) +
                            if StoreOp(addr, value).kind == WrDram then [(StoreOp(addr, value).value, value)] else []
      ensures srfWrites == old(srfWrites) +
                           if StoreOp(addr, value).kind == WrSrf then [(StoreOp(addr, value).value, value)] else []
      ensures instWrites == old(instWrites) + if addr == NPU_INST_FIFO then 1 else 0
      ensures otherAccesses == old(otherAccesses) + if StoreOp(addr, value).kind == Other then 1 else 0
      ensures statusReads == old(statusReads)
    {
      hide Words;
      WordsAppend(if addr == NPU_RESET && value != 0 then [] else fullTrace, StoreOp(addr, value));
      if addr == NPU_INST_FIFO {
        fullTrace := fullTrace + [Op(WrInst, value)];
        instTrace := instTrace + [value];
        instWrites := instWrites + 1;
        status := STATUS_DONE;
        return;
      } else if addr == NPU_RESET {
        if value != 0 {
          fullTrace, instTrace := [], [];
          status := STATUS_IDLE;
        }
        fullTrace := fullTrace + [Op(Other, 0)];
        otherAccesses := otherAccesses + 1;
        return;
      }
      if NPU_DRAM_BASE <= addr < NPU_DRAM_END {
        var floatOff := (addr - NPU_DRAM_BASE) / 4;
        dramWrites := dramWrites + [(floatOff, value)];
        fullTrace := fullTrace + [Op(WrDram, floatOff)];
        return;
      }
      if NPU_SRF_BASE <= addr < NPU_SRF_END {
        var idx := (addr - NPU_SRF_BASE) / 4;
        srfWrites := srfWrites + [(idx, value)];
        fullTrace := fullTrace + [Op(WrSrf, idx)];
        return;
      }
      fullTrace := fullTrace + [Op(Other, 0)];
      otherAccesses := otherAccesses + 1;
    }

    method ExtractBatches() returns (batches: seq<seq<nat>>)
      requires Valid()
      ensures batches == BatchesFrom(fullTrace, [])
      ensures Flatten(batches) == instTrace
    {
      batches := [];
      var current: seq<nat> := [];
      for i := 0 to |fullTrace|
        invariant batches + BatchesFrom(fullTrace[i..], current) == BatchesFrom(fullTrace, [])
      {
        var op := fullTrace[i];
        assert fullTrace[i..][1..] == fullTrace[i + 1..];
        ghost var rest := BatchesFrom(fullTrace[i + 1..], []);
        if op.kind == WrInst {
          current := current + [op.value];
        } else if op.kind == RdStat && current != [] {
          if i + 1 < |fullTrace| && fullTrace[i + 1].kind == RdStat {
            assert batches + ([current] + rest) == (batches + [current]) + rest;
            batches := batches + [current];
            current := [];
          }
        }
      }
      BatchesKeepWords(fullTrace, []);
      if current != [] { batches := batches + [current]; } else { assert batches + [] == batches; }
    }
  }

  // ---- The driver ----

  predicate Full(status: nat)
  {
    status / 4 % 2 == 1
  }

  predicate Done(status: nat)
  {
    status / 2 % 2 == 1
  }

  /** A status is made of three bits: busy, done and full. */
  lemma StatusBits(status: nat)
    ensures status % 8 == status % 2 + (if Done(status) then 2 else 0) + if Full(status) then 4 else 0
  {
    var q, r := status / 8, status % 8;
    assert status / 4 == 2 * q + r / 4 && status / 2 == 4 * q + r / 2 && status % 2 == r % 2;
    assert (2 * q + r / 4) % 2 == r / 4 && (4 * q + r / 2) % 2 == r / 2 % 2;
  }

  /** The emulated device is never full, so the poll runs once. */
  method NpuSendInst(rec: TraceRecorder, inst: nat)
    requires rec.Valid()
    modifies rec
    ensures rec.Valid() && rec.status == STATUS_DONE
    ensures rec.fullTrace == old(rec.fullTrace) + [Op(RdStat, old(rec.status)), Op(WrInst, inst)]
  {
    var s := rec.Load(NPU_STATUS, 0);
    assert !Full(s);
    rec.Store(NPU_INST_FIFO, inst);
  }

  /** After an instruction the emulated device is done, so the poll runs once. */
  method NpuWaitDone(rec: TraceRecorder)
    requires rec.Valid() && rec.status == STATUS_DONE
    modifies rec
    ensures rec.Valid() && rec.status == STATUS_DONE
    ensures rec.fullTrace == old(rec.fullTrace) + [Op(RdStat, STATUS_DONE)]
  {
    var s := rec.Load(NPU_STATUS, 0);
    assert Done(s);
  }

  /** Sends one batch and waits for it. */
  method SendBatch(rec: TraceRecorder, batch: seq<nat>)
    requires rec.Valid() && batch != []
    modifies rec
    ensures rec.Valid() && rec.status == STATUS_DONE
    ensures rec.fullTrace == old(rec.fullTrace) + Sends(batch, old(rec.status)) + [Op(RdStat, STATUS_DONE)]
  {
    ghost var before, status := rec.fullTrace, rec.status;
    for i := 0 to |batch|
      invariant rec.Valid() && (i > 0 ==> rec.status == STATUS_DONE) && (i == 0 ==> rec.status == status)
      invariant rec.fullTrace + Sends(batch[i..], rec.status) == before + Sends(batch, status)
    {
      ghost var was, wasStatus := rec.fullTrace, rec.status;
      NpuSendInst(rec, batch[i]);
      assert batch[i..][1..] == batch[i + 1..];
      ghost var two, later := [Op(RdStat, wasStatus), Op(WrInst, batch[i])], Sends(batch[i + 1..], STATUS_DONE);
      assert was + (two + later) == (was + two) + later;
    }
    assert rec.fullTrace + [] == rec.fullTrace;
    NpuWaitDone(rec);
  }

  /** Replaying batches: push a whole batch, then wait for it. What is recorded extracts to the same batches. */
  method ReplayBatches(rec: TraceRecorder, batches: seq<seq<nat>>) returns (extracted: seq<seq<nat>>)
    requires rec.Valid() && rec.fullTrace == [] && forall i :: 0 <= i < |batches| ==> batches[i] != []
    modifies rec
    ensures rec.Valid() && rec.fullTrace == Render(Plain(batches), old(rec.status))
    ensures extracted == batches
  {
    hide Render, Sends, BatchesFrom;
    ghost var status := rec.status;
    assert batches[0..] == batches;
    for i := 0 to |batches|
      invariant rec.Valid() && (i > 0 ==> rec.status == STATUS_DONE) && (i == 0 ==> rec.status == status)
      invariant rec.fullTrace + Render(Plain(batches[i..]), rec.status) == Render(Plain(batches), status)
    {
      ghost var was, wasStatus := rec.fullTrace, rec.status;
      SendBatch(rec, batches[i]);
      RenderStep(was, batches, i, wasStatus);
    }
    assert Plain(batches[|batches|..]) == [];
    NothingRendered(rec.status);
    assert rec.fullTrace + [] == rec.fullTrace;
    extracted := rec.ExtractBatches();
    ExtractInvertsDriver(batches, status);
    AllNonEmpty(batches);
  }

  lemma RenderStep(trace: seq<Op>, batches: seq<seq<nat>>, i: nat, status: nat)
    requires i < |batches|
    ensures trace + Render(Plain(batches[i..]), status)
         == trace + Sends(batches[i], status) + [Op(RdStat, STATUS_DONE)] + Render(Plain(batches[i + 1..]), STATUS_DONE)
  {
    hide Sends;
    var segs, later := Plain(batches[i..]), Render(Plain(batches[i + 1..]), STATUS_DONE);
    assert segs[1..] == Plain(batches[i + 1..]);
    assert Render(segs, status) == Sends(batches[i], status) + ([Op(RdStat, STATUS_DONE)] + []) + later;
  }

  lemma {:induction false} AllNonEmpty(batches: seq<seq<nat>>)
    requires forall i :: 0 <= i < |batches| ==> batches[i] != []
    ensures NonEmpty(batches) == batches
  {
    if batches != [] {
      AllNonEmpty(batches[1..]);
    }
  }

  // ---- Splitting the event list ----

  predicate NoIncrements(words: seq<nat>)
  {
    forall i :: 0 <= i < |words| ==> D.IncBase(CallOf(words[i]).op).None?
  }

  /** Without increment variants a word is one event, carrying that word. */
  lemma {:induction false} OneEventEach(c: D.Config, d: D.Device, idx: nat, words: seq<nat>)
    requires NoIncrements(words)
    ensures var es := EventsOfRun(c, d, idx, words);
            |es| == |words| && forall i :: 0 <= i < |es| ==> es[i].raw == words[i]
    decreases |words|
  {
    hide CallOf, EventOf, D.Push;
    if words != [] {
      assert D.IncBase(CallOf(words[0]).op).None?;
      assert CallsOf(c, d, CallOf(words[0])) == [CallOf(words[0])];
      EventHasRaw(idx, words[0], CallOf(words[0]));
      forall i | 0 <= i < |words[1..]|
        ensures D.IncBase(CallOf(words[1..][i]).op).None?
      {
        assert words[1..][i] == words[i + 1];
      }
      OneEventEach(c, D.Push(c, d, words[0]), idx + 1, words[1..]);
    }
  }

  lemma EventHasRaw(idx: nat, raw: nat, x: Call)
    ensures EventOf(idx, raw, x).raw == raw
  {
  }

  function SplitFrom(events: seq<Event>, sizes: seq<nat>): seq<seq<Event>>
    decreases |sizes|
  {
    if sizes == [] then (if events == [] then [] else [events])
    else
      var n := if sizes[0] <= |events| then sizes[0] else |events|;
      [events[..n]] + SplitFrom(events[n..], sizes[1..])
  }

  /** events[a:b] as Python slices it. */
  function Slice(events: seq<Event>, a: nat, b: nat): seq<Event>
  {
    if a >= |events| || b <= a then [] else if b <= |events| then events[a..b] else events[a..]
  }

  function From(events: seq<Event>, offset: nat): seq<Event>
  {
    if offset <= |events| then events[offset..] else []
  }

  lemma SplitStep(events: seq<Event>, sizes: seq<nat>, offset: nat, i: nat, batches: seq<seq<Event>>)
    requires i < |sizes|
    ensures batches + SplitFrom(From(events, offset), sizes[i..])
         == batches + [Slice(events, offset, offset + sizes[i])] +
            SplitFrom(From(events, offset + sizes[i]), sizes[i + 1..])
  {
    hide From, Slice;
    FromStep(events, offset, sizes[i]);
    SplitNext(From(events, offset), sizes, i);
    var batch := Slice(events, offset, offset + sizes[i]);
    var later := SplitFrom(From(events, offset + sizes[i]), sizes[i + 1..]);
    assert batches + ([batch] + later) == batches + [batch] + later;
  }

  function Shorter(a: nat, b: nat): nat
  {
    if a <= b then a else b
  }

  lemma FromStep(events: seq<Event>, offset: nat, size: nat)
    ensures var rest, n := From(events, offset), Shorter(size, |From(events, offset)|);
            n <= |rest| && rest[..n] == Slice(events, offset, offset + size) && rest[n..] == From(events, offset + size)
  {
  }

  lemma {:induction false} SplitNext(rest: seq<Event>, sizes: seq<nat>, i: nat)
    requires i < |sizes|
    ensures var n := Shorter(sizes[i], |rest|);
            n <= |rest| && SplitFrom(rest, sizes[i..]) == [rest[..n]] + SplitFrom(rest[n..], sizes[i + 1..])
  {
    assert sizes[i..][1..] == sizes[i + 1..];
  }

  method SplitEventsIntoBatches(events: seq<Event>, sizes: seq<nat>) returns (batches: seq<seq<Event>>)
    ensures batches == if events == [] then [] else SplitFrom(events, sizes)
  {
    if events == [] { return []; }
    batches := [];
    var offset: nat := 0;
    for i := 0 to |sizes|
      invariant batches + SplitFrom(From(events, offset), sizes[i..]) == SplitFrom(events, sizes)
    {
      SplitStep(events, sizes, offset, i, batches);
      batches := batches + [Slice(events, offset, offset + sizes[i])];
      offset := offset + sizes[i];
    }
    assert sizes[|sizes|..] == [];
    if offset < |events| { batches := batches + [events[offset..]]; } else { assert batches + [] == batches; }
  }

  function Joined(batches: seq<seq<Event>>): seq<Event>
  {
    if batches == [] then [] else batches[0] + Joined(batches[1..])
  }

  /** Splitting never loses, repeats or reorders an event, whatever the sizes. */
  lemma {:induction false} SplitKeepsEvents(events: seq<Event>, sizes: seq<nat>)
    ensures Joined(SplitFrom(events, sizes)) == events
    decreases |sizes|
  {
    if sizes != [] {
      var n := if sizes[0] <= |events| then sizes[0] else |events|;
      var rest := SplitFrom(events[n..], sizes[1..]);
      SplitKeepsEvents(events[n..], sizes[1..]);
      assert ([events[..n]] + rest)[1..] == rest;
    }
  }

  function Sizes(batches: seq<seq<nat>>): (sizes: seq<nat>)
    ensures |sizes| == |batches|
  {
    seq(|batches|, i requires 0 <= i < |batches| => |batches[i]|)
  }

  function Raws(events: seq<Event>): (raws: seq<nat>)
    ensures |raws| == |events|
  {
    seq(|events|, i requires 0 <= i < |events| => events[i].raw)
  }

  lemma {:induction false} SplitByBatch(events: seq<Event>, batches: seq<seq<nat>>)
    requires Raws(events) == Flatten(batches)
    ensures |SplitFrom(events, Sizes(batches))| == |batches|
    ensures forall i :: 0 <= i < |batches| ==> Raws(SplitFrom(events, Sizes(batches))[i]) == batches[i]
    decreases |batches|
  {
    if batches != [] {
      var n := |batches[0]|;
      assert |Raws(events)| == n + |Flatten(batches[1..])|;
      assert Raws(events[n..]) == Raws(events)[n..] == Flatten(batches[1..]);
      assert Raws(events[..n]) == Raws(events)[..n] == batches[0];
      assert Sizes(batches)[1..] == Sizes(batches[1..]);
      SplitByBatch(events[n..], batches[1..]);
    }
  }

  /** Without increment variants the extracted sizes cut a run's events at the batches the driver sent. */
  lemma EventsFollowBatches(c: D.Config, d: D.Device, batches: seq<seq<nat>>, status: nat)
    requires NoIncrements(Flatten(NonEmpty(batches)))
    ensures var sent := NonEmpty(batches);
            var extracted := BatchesFrom(Render(Plain(batches), status), []);
            var split := SplitFrom(EventsOfRun(c, d, 0, Flatten(sent)), Sizes(extracted));
            |split| == |sent| && forall i :: 0 <= i < |sent| ==> Raws(split[i]) == sent[i]
  {
    var words := Flatten(NonEmpty(batches));
    ExtractInvertsDriver(batches, status);
    OneEventEach(c, d, 0, words);
    assert Raws(EventsOfRun(c, d, 0, words)) == words;
    SplitByBatch(EventsOfRun(c, d, 0, words), NonEmpty(batches));
  }
}
