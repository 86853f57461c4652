/**
  Stage 932: forty waves of coloured mechanisms, thirty correct hits open the
  exit, three wrong ones lose (gf/battle_svr/battle_logic.cpp).
 */
module Stage932 {
  import opened PuzzleBoard
  import opened Sequences
  import opened Shuffle
  import opened Words

  // ---- Boards ----------------------------------------------------------

  /** Every rand() value one wave consumes. */
  datatype Rolls = Rolls(target: nat, x: nat, y: nat, z: nat, draws1: seq<nat>, draws2: seq<nat>, draws3: seq<nat>) {
    ghost predicate Enough() {
      |draws1| >= CELLS && |draws2| >= CELLS && |draws3| >= CELLS
    }
  }

  /** Threshold choice on a percentage: at least `high` gives `top`, below `low` gives `bottom`, else `middle`. */
  function Band(roll: nat, high: nat, low: nat, top: nat, bottom: nat, middle: nat): nat {
    if roll % 100 >= high then top else if roll % 100 < low then bottom else middle
  }

  /** Cell counts of the wave's colours before they are rotated to the target; z only from wave 20 on. */
  function Amounts(waves: nat, r: Rolls): (nat, nat, nat) {
    if waves < 10 then (Band(r.x, 50, 35, 4, 3, 2), Band(r.y, 50, 35, 2, 3, 4), 0)
    else if waves < 20 then (Band(r.x, 60, 20, 2, 4, 2), Band(r.y, 40, 10, 4, 2, 3), 0)
    else if waves < 30 then (Band(r.x, 70, 40, 3, 1, 2), Band(r.y, 80, 45, 3, 1, 2), Band(r.z, 80, 45, 3, 1, 2))
    else (Band(r.x, 90, 55, 3, 1, 2), Band(r.y, 90, 55, 1, 3, 2), Band(r.z, 90, 55, 1, 3, 2))
  }

  function Target(waves: nat, r: Rolls): (t: nat)
    ensures t <= 8
  {
    if waves < 20 then (if r.target % 4 == 2 then 4 else r.target % 4) else r.target % 9
  }

  /** `swap_x`: (x, y, z) becomes (z, x, y). */
  function Rotate(a: (nat, nat, nat)): (nat, nat, nat) { (a.2, a.0, a.1) }

  /** Red, blue and purple cells on the board. Target 4 of the two-colour waves is blue and yet does not swap. */
  function Colours(waves: nat, r: Rolls): (nat, nat, nat) {
    var a, t := Amounts(waves, r), Target(waves, r);
    if waves < 20 then (if t / 2 == 1 then (a.1, a.0, a.2) else a)
    else if t / 3 == 0 then a
    else if t / 3 == 1 then Rotate(a)
    else Rotate(Rotate(a))
  }

  /**
    The shuffles of one wave: all cells, then the cells to colour, then, with three
    colours, those that are not red.
   */
  function WaveShuffles(c: (nat, nat, nat), three: bool, r: Rolls): seq<Part> {
    var n := c.0 + c.1 + c.2;
    [Part(0, CELLS, r.draws1)] + [Part(0, n, r.draws2)] + (if three then [Part(c.0, n, r.draws3)] else [])
  }

  /** The cells in the order in which `c` cells of each colour are given out. */
  ghost function Positions(c: (nat, nat, nat), three: bool, r: Rolls): (p: seq<nat>)
    requires r.Enough() && c.0 + c.1 + c.2 <= CELLS
    ensures |p| == CELLS
  {
    ShuffledParts(Identity(CELLS), WaveShuffles(c, three, r))
  }

  lemma AtMostNine(waves: nat, r: Rolls)
    ensures var c := Colours(waves, r); 1 <= c.0 <= 4 && 1 <= c.1 <= 4 && c.2 <= 3 && c.0 + c.1 + c.2 <= 9
    ensures waves >= 20 ==> Colours(waves, r).2 >= 1
    ensures waves < 20 ==> Colours(waves, r).2 == 0
  {
  }

  /** The colour of the i-th cell in that order: 1 red, 2 blue, 3 purple, 0 blank. */
  function ColourOf(i: nat, c: (nat, nat, nat)): nat {
    if i < c.0 then 1 else if i < c.0 + c.1 then 2 else if i < c.0 + c.1 + c.2 then 3 else 0
  }

  predicate OnBoard(pos: seq<nat>) { forall i :: 0 <= i < |pos| ==> pos[i] < CELLS }

  /** The board after the first `n` positions have been coloured. */
  function Paint(pos: seq<nat>, c: (nat, nat, nat), n: nat): (board: seq<nat>)
    requires n <= |pos| && OnBoard(pos)
    ensures |board| == CELLS
  {
    if n == 0 then seq(CELLS, _ => 0) else Paint(pos, c, n - 1)[pos[n - 1] := ColourOf(n - 1, c)]
  }

  /** The shuffles only reorder the twelve cells. */
  lemma PositionsPermute(c: (nat, nat, nat), three: bool, r: Rolls)
    requires r.Enough() && c.0 + c.1 + c.2 <= CELLS
    ensures multiset(Positions(c, three, r)) == multiset(Identity(CELLS))
    ensures OnBoard(Positions(c, three, r)) && Distinct(Positions(c, three, r))
  {
    var p := Positions(c, three, r);
    PartsArePermutation(Identity(CELLS), WaveShuffles(c, three, r));
    PermutationKeepsDistinct(Identity(CELLS), p);
    forall i | 0 <= i < CELLS
      ensures p[i] < CELLS
    {
      assert p[i] in multiset(p);
    }
  }

  // ---- Counting colours ------------------------------------------------

  /** The board read in the order `pos`. */
  function Gather(board: seq<nat>, pos: seq<nat>): (r: seq<nat>)
    requires |board| == CELLS && OnBoard(pos)
    ensures |r| == |pos|
  {
    seq(|pos|, i requires 0 <= i < |pos| => board[pos[i]])
  }

  /** Reading a board along two orders with the same cells meets the same colours. */
  lemma {:induction false} GatherAlongPermutation(board: seq<nat>, p: seq<nat>, q: seq<nat>)
    requires |board| == CELLS && OnBoard(p) && OnBoard(q) && multiset(p) == multiset(q)
    ensures multiset(Gather(board, p)) == multiset(Gather(board, q))
    decreases |p|
  {
    assert |multiset(p)| == |p| && |multiset(q)| == |q|;
    if p != [] {
      assert p[0] in multiset(q);
      var j: nat :| j < |q| && q[j] == p[0];
      GatherWithout(board, p, 0);
      GatherWithout(board, q, j);
      GatherAlongPermutation(board, Without(p, 0), Without(q, j));
    }
  }

  function Without(q: seq<nat>, j: nat): seq<nat>
    requires j < |q|
  {
    q[..j] + q[j + 1..]
  }

  lemma GatherWithout(board: seq<nat>, q: seq<nat>, j: nat)
    requires |board| == CELLS && j < |q| && OnBoard(q)
    ensures OnBoard(Without(q, j)) && |Without(q, j)| == |q| - 1
    ensures multiset(Without(q, j)) == multiset(q) - multiset{q[j]}
    ensures multiset(Gather(board, q)) == multiset(Gather(board, Without(q, j))) + multiset{board[q[j]]}
  {
    WithoutOne(q, j);
    WithoutOne(Gather(board, q), j);
    assert Gather(board, Without(q, j)) == Without(Gather(board, q), j);
  }

  lemma WithoutOne(s: seq<nat>, j: nat)
    requires j < |s|
    ensures multiset(s) == multiset(Without(s, j)) + multiset{s[j]}
  {
    assert s == s[..j] + [s[j]] + s[j + 1..];
  }

  /** Distinct positions keep their colour: painting goes through each of them once. */
  lemma {:induction false} PaintColours(pos: seq<nat>, c: (nat, nat, nat), n: nat, i: nat)
    requires n <= |pos| && i < |pos| && Distinct(pos) && OnBoard(pos)
    ensures Paint(pos, c, n)[pos[i]] == if i < n then ColourOf(i, c) else 0
    decreases n
  {
    if n > 0 {
      PaintColours(pos, c, n - 1, i);
    }
  }

  /** The colours in the order they are given out, blanks last. */
  function Palette(c: (nat, nat, nat)): (r: seq<nat>)
    ensures |r| == CELLS
  {
    seq(CELLS, i requires 0 <= i => ColourOf(i, c))
  }

  function Count(s: seq<nat>, x: nat): nat { multiset(s)[x] }

  /** The board that gives out `c` cells of each colour. */
  ghost function BoardOf(c: (nat, nat, nat), three: bool, r: Rolls): (board: seq<nat>)
    requires r.Enough() && c.0 + c.1 + c.2 <= CELLS
    ensures |board| == CELLS
  {
    PositionsPermute(c, three, r);
    Paint(Positions(c, three, r), c, c.0 + c.1 + c.2)
  }

  /** The board of one wave. */
  ghost function Board(waves: nat, r: Rolls): (board: seq<nat>)
    requires r.Enough()
    ensures |board| == CELLS
  {
    AtMostNine(waves, r);
    BoardOf(Colours(waves, r), waves >= 20, r)
  }

  lemma BoardHasThePalette(c: (nat, nat, nat), three: bool, r: Rolls)
    requires r.Enough() && c.0 + c.1 + c.2 <= CELLS
    ensures multiset(BoardOf(c, three, r)) == multiset(Palette(c))
  {
    PositionsPermute(c, three, r);
    PaintedByPalette(Positions(c, three, r), c);
  }

  lemma PaintedByPalette(pos: seq<nat>, c: (nat, nat, nat))
    requires c.0 + c.1 + c.2 <= CELLS && OnBoard(pos) && Distinct(pos)
    requires multiset(pos) == multiset(Identity(CELLS))
    ensures |pos| == CELLS && multiset(Paint(pos, c, c.0 + c.1 + c.2)) == multiset(Palette(c))
  {
    assert |multiset(pos)| == |pos| && |multiset(Identity(CELLS))| == CELLS;
    var board := Paint(pos, c, c.0 + c.1 + c.2);
    forall i | 0 <= i < CELLS
      ensures board[pos[i]] == ColourOf(i, c)
    {
      PaintColours(pos, c, c.0 + c.1 + c.2, i);
    }
    assert Gather(board, pos) == Palette(c);
    assert Gather(board, Identity(CELLS)) == board;
    GatherAlongPermutation(board, pos, Identity(CELLS));
  }

  lemma {:induction false} CountPaletteFrom(c: (nat, nat, nat), k: nat, x: nat)
    requires k <= CELLS && c.0 + c.1 + c.2 <= CELLS && 1 <= x <= 3
    ensures Count(Palette(c)[..k], x) ==
              var lo := if x == 1 then 0 else if x == 2 then c.0 else c.0 + c.1;
              var n := if x == 1 then c.0 else if x == 2 then c.1 else c.2;
              if k <= lo then 0 else if k <= lo + n then k - lo else n
    decreases k
  {
    if k > 0 {
      CountPaletteFrom(c, k - 1, x);
      assert Palette(c)[..k] == Palette(c)[..k - 1] + [Palette(c)[k - 1]];
    }
  }

  /** Does hitting a cell of this colour count as correct while `target` is set? */
  predicate IsCorrect(target: nat, colour: nat) {
    (colour == 1 && target <= 2) || (colour == 2 && 3 <= target <= 5) || (colour == 3 && 6 <= target <= 8)
  }

  /** The colour that a target asks for: targets 0 to 2 mean red, 3 to 5 blue, 6 to 8 purple. */
  function Wanted(target: nat): nat { 1 + target / 3 }

  lemma BoardIsExact(c: (nat, nat, nat), three: bool, r: Rolls)
    requires r.Enough() && c.0 + c.1 + c.2 <= CELLS
    ensures var board := BoardOf(c, three, r);
            && Count(board, 1) == c.0 && Count(board, 2) == c.1 && Count(board, 3) == c.2
            && (forall k :: 0 <= k < CELLS ==> board[k] <= 3)
  {
    var board := BoardOf(c, three, r);
    BoardHasThePalette(c, three, r);
    assert Palette(c)[..CELLS] == Palette(c);
    CountPaletteFrom(c, CELLS, 1);
    CountPaletteFrom(c, CELLS, 2);
    CountPaletteFrom(c, CELLS, 3);
    forall k | 0 <= k < CELLS
      ensures board[k] <= 3
    {
      assert board[k] in multiset(board);
      assert board[k] in Palette(c);
    }
  }

  /**
    For every random outcome a wave shows exactly its drawn number of red, blue
    and purple cells, leaves at least three cells blank, and shows at least one
    cell of the colour its target asks for.
   */
  lemma BoardIsExactAndWinnable(waves: nat, r: Rolls)
    requires r.Enough()
    ensures var board, c := Board(waves, r), Colours(waves, r);
            && Count(board, 1) == c.0 && Count(board, 2) == c.1 && Count(board, 3) == c.2
            && c.0 + c.1 + c.2 <= 9 && |board| == 12
            && (forall k :: 0 <= k < CELLS ==> board[k] <= 3)
            && Count(board, Wanted(Target(waves, r))) >= 1
            && (exists k :: 0 <= k < CELLS && board[k] == Wanted(Target(waves, r)))
  {
    var board, t := Board(waves, r), Target(waves, r);
    AtMostNine(waves, r);
    BoardIsExact(Colours(waves, r), waves >= 20, r);
    assert Wanted(t) in multiset(board);
  }

  // ---- The stage -------------------------------------------------------

  /** Colour slot value meaning that the wave's one hit is spent. */
  const SPENT := 10

  /**
    The battle's counters while stage 932 runs. `correct` and `wrong` are
    history: the hits answered with 1 and with 3. `exits` counts exit monsters
    called, `over` says the logic is no longer registered.
   */
  datatype Stage = Stage(waves: nat, target: nat, score: nat, stamp: nat, board: seq<nat>,
                         barriers: nat, exits: nat, over: bool, correct: nat, wrong: nat)

  const INITIAL := Stage(0, 0, 0, 0, [], 0, 0, false, 0, 0)

  datatype Event = Tick(now: nat, rolls: Rolls) | Hit(cell: nat, now: nat)

  ghost predicate Enabled(s: Stage, e: Event) {
    match e
    case Tick(now, rolls) => now < U32 && rolls.Enough()
    case Hit(cell, now) => now < U32 && cell < |s.board|
  }

  /** `process_battle_932_logic`; `target` and `board` are what a new wave would show. */
  function TickStage(s: Stage, now: nat, target: nat, board: seq<nat>): Stage {
    if s.over then s
    else if s.score / 100 >= 3 || (s.waves >= 40 && Add32(s.stamp, 3) < now) then s.(over := true)
    else if s.score % 100 >= 30 then
      (if s.barriers == 0 then s.(board := [], barriers := 1, exits := s.exits + 1) else s)
    else if s.stamp == 0 then s.(stamp := Add32(now, 2))
    else if Add32(s.stamp, 3) < now then s.(stamp := now, target := target, board := board, waves := s.waves + 1)
    else s
  }

  /** The client's answer code of a hit: 0 ignored, 1 correct, 3 wrong. */
  function HitAnswer(s: Stage, cell: nat): nat
    requires cell < |s.board|
  {
    if s.target > 9 then 0 else if IsCorrect(s.target, s.board[cell]) then 1 else 3
  }

  /** The stage 932 half of `extra_mechanism_logic`, for a mechanism standing on the board. */
  function HitStage(s: Stage, cell: nat, now: nat): Stage
    requires cell < |s.board|
  {
    var x := HitAnswer(s, cell);
    if x == 0 then s
    else if x == 1 then
      s.(score := s.score + 1, correct := s.correct + 1, stamp := Sub32(now, 2), target := SPENT)
    else
      s.(score := s.score + 100, wrong := s.wrong + 1, stamp := Sub32(now, 2), target := SPENT)
  }

  ghost function Step(s: Stage, e: Event): Stage
    requires Enabled(s, e)
  {
    match e
    case Tick(now, rolls) => TickStage(s, now, Target(s.waves, rolls), Board(s.waves, rolls))
    case Hit(cell, now) => HitStage(s, cell, now)
  }

  /** The current wave still has its hit. */
  predicate Armed(s: Stage) { s.board != [] && s.target != SPENT }

  ghost predicate Inv(s: Stage) {
    && s.score == 100 * s.wrong + s.correct
    && s.correct + s.wrong + (if Armed(s) then 1 else 0) <= s.waves <= 40
    && s.correct <= 30 && s.wrong <= 3
    && (Armed(s) ==> s.correct < 30 && s.wrong < 3)
    && (s.target <= 8 || s.target == SPENT)
    && (s.exits > 0 ==> s.correct == 30)
    && s.exits <= s.barriers
    && (s.board == [] || |s.board| == CELLS)
    && (forall k :: 0 <= k < |s.board| ==> s.board[k] <= 3)
    && (s.over ==> s.wrong == 3 || s.waves == 40)
  }

  lemma TickKeepsInv(s: Stage, now: nat, target: nat, board: seq<nat>)
    requires Inv(s) && target <= 8 && |board| == CELLS && forall k :: 0 <= k < CELLS ==> board[k] <= 3
    ensures Inv(TickStage(s, now, target, board))
  {
    Unpack(s.wrong, s.correct);
  }

  lemma HitKeepsInv(s: Stage, cell: nat, now: nat)
    requires Inv(s) && cell < |s.board|
    ensures Inv(HitStage(s, cell, now))
  {
  }

  lemma StepKeepsInv(s: Stage, e: Event)
    requires Inv(s) && Enabled(s, e)
    ensures Inv(Step(s, e))
  {
    match e
    case Tick(now, rolls) =>
      BoardIsExactAndWinnable(s.waves, rolls);
      TickKeepsInv(s, now, Target(s.waves, rolls), Board(s.waves, rolls));
    case Hit(cell, now) => HitKeepsInv(s, cell, now);
  }

  /** States along a run, starting at `s`. */
  ghost predicate Run(trace: seq<Stage>, events: seq<Event>) {
    && |trace| == |events| + 1 && trace[0] == INITIAL
    && forall i :: 0 <= i < |events| ==> Enabled(trace[i], events[i]) && trace[i + 1] == Step(trace[i], events[i])
  }

  /**
    In every run, in every state: the packed score is exactly 100 times the
    wrong hits plus the correct ones, correct and wrong hits together never
    exceed the waves shown, waves stay within 40, correct hits within 30 and
    wrong ones within 3, and no exit is called before 30 correct hits.
   */
  lemma {:induction false} RunKeepsInv(trace: seq<Stage>, events: seq<Event>, n: nat)
    requires Run(trace, events) && n < |trace|
    ensures Inv(trace[n])
    decreases n
  {
    if n > 0 {
      RunKeepsInv(trace, events, n - 1);
      StepKeepsInv(trace[n - 1], events[n - 1]);
    }
  }

  /** Every order of the cells can be drawn. */
  lemma AnyPositionsCanBeDrawn(c: (nat, nat, nat), three: bool, p: seq<nat>, r: Rolls) returns (q: Rolls)
    requires c.0 + c.1 + c.2 <= CELLS && multiset(p) == multiset(Identity(CELLS))
    ensures q.Enough() && q == r.(draws1 := q.draws1, draws2 := q.draws2, draws3 := q.draws3)
    ensures Positions(c, three, q) == p
  {
    var draws := EveryArrangementIsDrawn(Identity(CELLS), p);
    var zeroes, n := seq(CELLS, _ => 0), c.0 + c.1 + c.2;
    q := r.(draws1 := draws, draws2 := zeroes, draws3 := zeroes);
    var rest := [Part(0, n, zeroes)] + (if three then [Part(c.0, n, zeroes)] else []);
    assert WaveShuffles(c, three, q) == [Part(0, CELLS, draws)] + rest;
    WholeIsShuffled(Identity(CELLS), draws);
    FirstPartDecides(Identity(CELLS), Part(0, CELLS, draws), rest);
  }

  /** So every placement of a wave's colours can be shown: red on the first cells of `p`, then blue, then purple. */
  lemma AnyBoardCanBeShown(waves: nat, r: Rolls, p: seq<nat>) returns (q: Rolls)
    requires multiset(p) == multiset(Identity(CELLS)) && |p| == CELLS
    ensures q.Enough() && Colours(waves, q) == Colours(waves, r) && Target(waves, q) == Target(waves, r)
    ensures var board, c := Board(waves, q), Colours(waves, r);
            forall i :: 0 <= i < CELLS ==>
              p[i] < CELLS
              && board[p[i]] == if i < c.0 then 1 else if i < c.0 + c.1 then 2 else if i < c.0 + c.1 + c.2 then 3 else 0
  {
    var c := Colours(waves, r);
    AtMostNine(waves, r);
    q := AnyPositionsCanBeDrawn(c, waves >= 20, p, r);
    PositionsPermute(c, waves >= 20, q);
    assert Colours(waves, q) == c;
    forall i | 0 <= i < CELLS
      ensures p[i] < CELLS && Board(waves, q)[p[i]] == ColourOf(i, c)
    {
      PaintColours(p, c, c.0 + c.1 + c.2, i);
    }
  }

  // ---- What a hit and a tick decide ------------------------------------

  /** A hit on a cell of the colour asked for is answered 1, any other 3, and a second one in the same wave 0. */
  lemma HitAnswersByColour(s: Stage, cell: nat)
    requires Inv(s) && cell < |s.board|
    ensures HitAnswer(s, cell) == if s.target == SPENT then 0 else if s.board[cell] == Wanted(s.target) then 1 else 3
  {
  }

  /** A hit that counts, and whether the colour was the one asked for. */
  ghost predicate HitsColour(s: Stage, e: Event, right: bool) {
    e.Hit? && e.cell < |s.board| && s.target <= 8 && (s.board[e.cell] == Wanted(s.target) <==> right)
  }

  /** How many of the first `n` events hit the right colour, or a wrong one. */
  ghost function Hits(trace: seq<Stage>, events: seq<Event>, n: nat, right: bool): nat
    requires n <= |events| < |trace|
  {
    if n == 0 then 0
    else Hits(trace, events, n - 1, right) + (if HitsColour(trace[n - 1], events[n - 1], right) then 1 else 0)
  }

  lemma HitCounts(s: Stage, e: Event, t: Stage)
    requires Inv(s) && Enabled(s, e) && t == Step(s, e)
    ensures t.correct == s.correct + (if HitsColour(s, e, true) then 1 else 0)
    ensures t.wrong == s.wrong + (if HitsColour(s, e, false) then 1 else 0)
  {
    if e.Tick? {
      var target, board := Target(s.waves, e.rolls), Board(s.waves, e.rolls);
      assert TickStage(s, e.now, target, board).correct == s.correct;
    }
  }

  lemma OneMoreEvent(trace: seq<Stage>, events: seq<Event>, n: nat)
    requires Run(trace, events) && n < |events|
    ensures trace[n + 1].correct == trace[n].correct + (if HitsColour(trace[n], events[n], true) then 1 else 0)
    ensures trace[n + 1].wrong == trace[n].wrong + (if HitsColour(trace[n], events[n], false) then 1 else 0)
  {
    RunKeepsInv(trace, events, n);
    HitCounts(trace[n], events[n], trace[n + 1]);
  }

  lemma {:induction false} HitsAreCounted(trace: seq<Stage>, events: seq<Event>, n: nat)
    requires Run(trace, events) && n < |trace|
    ensures trace[n].correct == Hits(trace, events, n, true) && trace[n].wrong == Hits(trace, events, n, false)
    decreases n
  {
    if n > 0 {
      HitsAreCounted(trace, events, n - 1);
      OneMoreEvent(trace, events, n - 1);
    }
  }

  /**
    In every run the packed score is 100 times the counted hits on a wrong colour
    plus the counted hits on the colour asked for.
   */
  lemma ScoreIsTheHits(trace: seq<Stage>, events: seq<Event>, n: nat)
    requires Run(trace, events) && n < |trace|
    ensures trace[n].score == 100 * Hits(trace, events, n, false) + Hits(trace, events, n, true)
  {
    HitsAreCounted(trace, events, n);
    RunKeepsInv(trace, events, n);
  }

  /** More than three seconds since the wave was shown. */
  predicate Due(s: Stage, now: nat) { now > Add32(s.stamp, 3) }

  /**
    What a tick decides, in terms of the hits: three wrong ones lose, and so does
    the end of the last wave, even with thirty right ones; thirty right ones call
    the exit, once; otherwise a new wave is shown when the old one is due.
   */
  lemma TickDecides(s: Stage, now: nat, target: nat, board: seq<nat>)
    requires Inv(s) && !s.over
    ensures var t := TickStage(s, now, target, board);
            var lost := s.wrong == 3 || (s.waves == 40 && Due(s, now));
            var shows := !lost && s.correct < 30 && s.stamp != 0 && Due(s, now);
            && (t.over <==> lost)
            && t.exits == s.exits + (if !lost && s.correct == 30 && s.barriers == 0 then 1 else 0)
            && t.waves == s.waves + (if shows then 1 else 0)
            && (shows ==> t.target == target && t.board == board && t.stamp == now)
            && (!shows ==> t.target == s.target)
            && (!lost && s.correct < 30 && s.stamp == 0 ==> t == s.(stamp := Add32(now, 2)))
            && t.score == s.score
  {
    Unpack(s.wrong, s.correct);
  }

  /** A counted hit shortens its wave: the next one is shown by the first tick more than a second later. */
  lemma HitBringsTheNextWave(s: Stage, cell: nat, now: nat, later: nat, target: nat, board: seq<nat>)
    requires Inv(s) && !s.over && cell < |s.board| && s.target <= 8 && 2 < now && now + 1 < U32
    requires s.waves < 40 && s.correct < 29 && s.wrong < 2
    ensures var h := HitStage(s, cell, now);
            var t := TickStage(h, later, target, board);
            if later > now + 1 then t.waves == s.waves + 1 && t.target == target && t.board == board else t == h
  {
    var h := HitStage(s, cell, now);
    HitKeepsInv(s, cell, now);
    Unpack(h.wrong, h.correct);
    assert h.stamp == now - 2;
  }

  // ---- How many cells of which colour ----------------------------------

  /** The first, second or third amount that a roll gives a wave. */
  function Amount(waves: nat, which: nat, roll: nat): nat {
    var a := Amounts(waves, Rolls(0, roll, roll, roll, [], [], []));
    if which == 0 then a.0 else if which == 1 then a.1 else a.2
  }

  /** How many of the rolls below `n` give the amount `v`. */
  function Rate(waves: nat, which: nat, n: nat, v: nat): nat {
    if n == 0 then 0 else Rate(waves, which, n - 1, v) + (if Amount(waves, which, n - 1) == v then 1 else 0)
  }

  function Least(a: int, b: int): int { if a < b then a else b }

  function BandRate(n: nat, high: nat, low: nat, top: nat, bottom: nat, middle: nat, v: nat): nat {
    if n == 0 then 0
    else BandRate(n - 1, high, low, top, bottom, middle, v)
         + (if Band(n - 1, high, low, top, bottom, middle) == v then 1 else 0)
  }

  lemma {:induction false} BandRateIs(n: nat, high: nat, low: nat, top: nat, bottom: nat, middle: nat, v: nat)
    requires low <= high <= 100 && n <= 100
    ensures BandRate(n, high, low, top, bottom, middle, v)
         == (if v == bottom then Least(n, low) else 0)
            + (if v == middle then Least(n, high) - Least(n, low) else 0)
            + (if v == top then n - Least(n, high) else 0)
    decreases n
  {
    if n > 0 {
      BandRateIs(n - 1, high, low, top, bottom, middle, v);
    }
  }

  lemma {:induction false} RateIsBandRate(waves: nat, which: nat, n: nat, v: nat, high: nat, low: nat,
                                          top: nat, bottom: nat, middle: nat)
    requires forall roll :: 0 <= roll < n ==> Amount(waves, which, roll) == Band(roll, high, low, top, bottom, middle)
    ensures Rate(waves, which, n, v) == BandRate(n, high, low, top, bottom, middle, v)
    decreases n
  {
    if n > 0 {
      RateIsBandRate(waves, which, n - 1, v, high, low, top, bottom, middle);
    }
  }

  lemma RateOfBand(waves: nat, which: nat, n: nat, v: nat, high: nat, low: nat, top: nat, bottom: nat, middle: nat)
    requires low <= high <= 100 && n == 100
    requires forall roll :: 0 <= roll < n ==> Amount(waves, which, roll) == Band(roll, high, low, top, bottom, middle)
    ensures Rate(waves, which, n, v) == (if v == bottom then low else 0) + (if v == middle then high - low else 0)
                                        + (if v == top then n - high else 0)
  {
    BandRateIs(n, high, low, top, bottom, middle, v);
    RateIsBandRate(waves, which, n, v, high, low, top, bottom, middle);
  }

  /** Of a hundred rolls, how many give which first amount, wave by wave. */
  lemma FirstRates(waves: nat, v: nat)
    ensures Rate(waves, 0, 100, v) ==
              if waves < 10 then (if v == 4 then 50 else if v == 3 then 35 else if v == 2 then 15 else 0)
              else if waves < 20 then (if v == 2 then 80 else if v == 4 then 20 else 0)
              else if waves < 30 then (if v == 1 then 40 else if v == 2 then 30 else if v == 3 then 30 else 0)
              else (if v == 1 then 55 else if v == 2 then 35 else if v == 3 then 10 else 0)
  {
    if waves < 10 {
      RateOfBand(waves, 0, 100, v, 50, 35, 4, 3, 2);
    } else if waves < 20 {
      RateOfBand(waves, 0, 100, v, 60, 20, 2, 4, 2);
    } else if waves < 30 {
      RateOfBand(waves, 0, 100, v, 70, 40, 3, 1, 2);
    } else {
      RateOfBand(waves, 0, 100, v, 90, 55, 3, 1, 2);
    }
  }

  lemma SecondRates(waves: nat, v: nat)
    ensures Rate(waves, 1, 100, v) ==
              if waves < 10 then (if v == 2 then 50 else if v == 3 then 35 else if v == 4 then 15 else 0)
              else if waves < 20 then (if v == 4 then 60 else if v == 3 then 30 else if v == 2 then 10 else 0)
              else if waves < 30 then (if v == 1 then 45 else if v == 2 then 35 else if v == 3 then 20 else 0)
              else (if v == 3 then 55 else if v == 2 then 35 else if v == 1 then 10 else 0)
  {
    if waves < 10 {
      RateOfBand(waves, 1, 100, v, 50, 35, 2, 3, 4);
    } else if waves < 20 {
      RateOfBand(waves, 1, 100, v, 40, 10, 4, 2, 3);
    } else if waves < 30 {
      RateOfBand(waves, 1, 100, v, 80, 45, 3, 1, 2);
    } else {
      RateOfBand(waves, 1, 100, v, 90, 55, 1, 3, 2);
    }
  }

  /** A third colour comes in with wave 20, as often as the second. */
  lemma ThirdRates(waves: nat, v: nat)
    ensures waves < 20 ==> Rate(waves, 2, 100, v) == if v == 0 then 100 else 0
    ensures waves >= 20 ==> Rate(waves, 2, 100, v) == Rate(waves, 1, 100, v)
  {
    if waves < 20 {
      RateOfBand(waves, 2, 100, v, 0, 0, 0, 0, 0);
    } else if waves < 30 {
      RateOfBand(waves, 2, 100, v, 80, 45, 3, 1, 2);
      RateOfBand(waves, 1, 100, v, 80, 45, 3, 1, 2);
    } else {
      RateOfBand(waves, 2, 100, v, 90, 55, 1, 3, 2);
      RateOfBand(waves, 1, 100, v, 90, 55, 1, 3, 2);
    }
  }

  /** Red, blue, purple, and red again. */
  function NextColour(colour: nat): nat { 1 + colour % 3 }

  /** The three counts by colour. */
  function CountOf(c: (nat, nat, nat), colour: nat): nat {
    if colour == 1 then c.0 else if colour == 2 then c.1 else c.2
  }

  lemma ColoursFollowTheTarget(waves: nat, r: Rolls)
    ensures var c, a, t := Colours(waves, r), Amounts(waves, r), Target(waves, r);
            var first := if waves < 20 && t == 4 then 1 else Wanted(t);
            && 1 <= first <= 3 && CountOf(c, first) == a.0
            && (waves < 20 ==> first <= 2 && CountOf(c, 3 - first) == a.1 && c.2 == 0)
            && (waves >= 20 ==> CountOf(c, NextColour(first)) == a.1)
            && (waves >= 20 ==> CountOf(c, NextColour(NextColour(first))) == a.2)
  {
    AtMostNine(waves, r);
  }

  lemma TargetsByRoll(waves: nat, r: Rolls)
    ensures waves < 20 ==> Wanted(Target(waves, r)) == if r.target % 4 <= 1 then 1 else 2
    ensures waves >= 20 ==> Wanted(Target(waves, r)) == 1 + r.target % 9 / 3
    ensures waves < 20 ==> (Target(waves, r) == 4 <==> r.target % 4 == 2)
  {
  }

  /**
    The colour asked for shows the first amount, the next colours the others:
    except under target 4 of the early waves, which asks for blue and yet shows
    the amounts as if it asked for red.
   */
  lemma WantedColourShowsTheFirstAmount(waves: nat, r: Rolls)
    requires r.Enough()
    ensures var board, a, t := Board(waves, r), Amounts(waves, r), Target(waves, r);
            var first := if waves < 20 && t == 4 then 1 else Wanted(t);
            && Count(board, first) == a.0
            && (waves < 20 ==> Count(board, 3 - first) == a.1 && Count(board, 3) == 0)
            && (waves >= 20 ==> Count(board, NextColour(first)) == a.1)
            && (waves >= 20 ==> Count(board, NextColour(NextColour(first))) == a.2)
  {
    ColoursFollowTheTarget(waves, r);
    CountsOnTheBoard(waves, r, 1);
    CountsOnTheBoard(waves, r, 2);
    CountsOnTheBoard(waves, r, 3);
  }

  lemma CountsOnTheBoard(waves: nat, r: Rolls, colour: nat)
    requires r.Enough() && 1 <= colour <= 3
    ensures Count(Board(waves, r), colour) == CountOf(Colours(waves, r), colour)
  {
    BoardIsExactAndWinnable(waves, r);
  }

  function Counted(s: Stage): nat { s.correct + s.wrong }

  /** What one step may do to the hit counts. */
  ghost predicate CountsOneHit(s: Stage, t: Stage) {
    && s.waves <= t.waves
    && Counted(s) <= Counted(t)
    && (s.waves == t.waves ==>
          && (Armed(t) ==> Armed(s))
          && Counted(t) + (if Armed(t) then 1 else 0) <= Counted(s) + (if Armed(s) then 1 else 0))
  }

  lemma StepCountsOneHit(s: Stage, e: Event)
    requires Inv(s) && Enabled(s, e)
    ensures CountsOneHit(s, Step(s, e))
  {
    if e.Tick? {
      TickCountsOneHit(s, e.now, Target(s.waves, e.rolls), Board(s.waves, e.rolls));
    }
  }

  lemma TickCountsOneHit(s: Stage, now: nat, target: nat, board: seq<nat>)
    requires Inv(s)
    ensures CountsOneHit(s, TickStage(s, now, target, board))
  {
  }

  lemma {:induction false} CountsAddUp(trace: seq<Stage>, i: nat, j: nat)
    requires i <= j < |trace| && forall k :: 0 <= k < |trace| - 1 ==> CountsOneHit(trace[k], trace[k + 1])
    ensures CountsOneHit(trace[i], trace[j])
    decreases j - i
  {
    if i < j {
      CountsAddUp(trace, i + 1, j);
      assert CountsOneHit(trace[i], trace[i + 1]);
    }
  }

  /** In every run at most one hit counts per wave: while no new wave is shown, the counted hits grow by at most one. */
  lemma OneHitPerWave(trace: seq<Stage>, events: seq<Event>, i: nat, j: nat)
    requires Run(trace, events) && i <= j < |trace|
    ensures trace[i].waves <= trace[j].waves
    ensures trace[i].waves == trace[j].waves ==> Counted(trace[i]) <= Counted(trace[j]) <= Counted(trace[i]) + 1
  {
    forall k | 0 <= k < |trace| - 1
      ensures CountsOneHit(trace[k], trace[k + 1])
    {
      RunKeepsInv(trace, events, k);
      StepCountsOneHit(trace[k], events[k]);
    }
    CountsAddUp(trace, i, j);
  }

  class PuzzleStage {
    var battleSectionData: nat
    var commonFlag1: nat
    var commonFlag2: nat
    var commonFlag3: nat
    var preBarriers: seq<nat>
    var barriers: nat
    var exits: nat
    var over: bool
    ghost var correct: nat
    ghost var wrong: nat

    ghost function State(): Stage
      reads this
    {
      Stage(battleSectionData, commonFlag1, commonFlag2, commonFlag3, preBarriers, barriers,
            exits, over, correct, wrong)
    }

    constructor ()
      ensures State() == INITIAL
    {
      battleSectionData, commonFlag1, commonFlag2, commonFlag3 := 0, 0, 0, 0;
      preBarriers, barriers, exits, over := [], 0, 0, false;
      correct, wrong := 0, 0;
    }

    /** One more shuffle of the positions, after those listed in `parts`. */
    method ShuffleOnce(pPos: array<nat>, lo: nat, n: nat, m: nat, draws: seq<nat>, ghost parts: seq<Part>)
      returns (ghost more: seq<Part>)
      requires pPos.Length == CELLS && lo + n <= CELLS && n <= |draws|
      requires Fit(parts, CELLS) && pPos[..] == ShuffledParts(Identity(CELLS), parts)
      modifies pPos
      ensures more == parts + [Part(lo, lo + n, draws)] && Fit(more, CELLS)
      ensures pPos[..] == ShuffledParts(Identity(CELLS), more)
    {
      more := parts + [Part(lo, lo + n, draws)];
      OnePartMore(Identity(CELLS), parts, Part(lo, lo + n, draws));
      RanPos(pPos, lo, n, m, draws);
    }

    /** All positions are shuffled, and then those to colour. */
    method ShuffleTwice(n: nat, x: nat, r: Rolls) returns (pPos: array<nat>, ghost parts: seq<Part>)
      requires r.Enough() && n <= CELLS
      ensures fresh(pPos) && pPos.Length == CELLS
      ensures parts == [Part(0, CELLS, r.draws1)] + [Part(0, n, r.draws2)] && Fit(parts, CELLS)
      ensures pPos[..] == ShuffledParts(Identity(CELLS), parts)
    {
      pPos := new nat[CELLS](i => i);
      assert pPos[..] == Identity(CELLS);
      parts := ShuffleOnce(pPos, 0, CELLS, n, r.draws1, []);
      parts := ShuffleOnce(pPos, 0, n, x, r.draws2, parts);
    }

    method ShufflePositions(x: nat, y: nat, z: nat, three: bool, r: Rolls) returns (pPos: array<nat>)
      requires r.Enough() && x + y + z <= CELLS
      ensures fresh(pPos) && pPos[..] == Positions((x, y, z), three, r)
    {
      ghost var parts;
      pPos, parts := ShuffleTwice(x + y + z, x, r);
      if three {
        parts := ShuffleOnce(pPos, x, y + z, y, r.draws3, parts);
      }
      assert WaveShuffles((x, y, z), three, r) == parts;
    }

    /** Colours the first x + y + z positions. */
    method PaintBoard(pPos: array<nat>, x: nat, y: nat, z: nat) returns (board: seq<nat>)
      requires x + y + z <= pPos.Length && OnBoard(pPos[..])
      ensures board == Paint(pPos[..], (x, y, z), x + y + z)
    {
      ghost var pos := pPos[..];
      var xPos := new nat[CELLS](_ => 0);
      assert xPos[..] == Paint(pos, (x, y, z), 0);
      for i := 0 to x + y + z
        invariant pPos[..] == pos && xPos[..] == Paint(pos, (x, y, z), i)
      {
        var k := pPos[i];
        if i < x {
          xPos[k] := 1;
        } else if i < x + y {
          xPos[k] := 2;
        } else {
          xPos[k] := 3;
        }
      }
      board := xPos[..];
    }

    method NextWave(waves: nat, r: Rolls) returns (target: nat, board: seq<nat>)
      requires r.Enough()
      ensures target == Target(waves, r) && board == Board(waves, r)
    {
      target := Target(waves, r);
      var (x, y, z) := Colours(waves, r);
      AtMostNine(waves, r);
      PositionsPermute((x, y, z), waves >= 20, r);
      var pPos := ShufflePositions(x, y, z, waves >= 20, r);
      assert forall i :: 0 <= i < pPos.Length ==> pPos[i] == pPos[..][i];
      board := PaintBoard(pPos, x, y, z);
    }

    method Process(now: nat, r: Rolls)
      requires r.Enough()
      modifies this
      ensures State() == TickStage(old(State()), now,
                                        Target(old(battleSectionData), r), Board(old(battleSectionData), r))
    {
      if over {
        return;
      }
      if commonFlag2 / 100 >= 3 || (battleSectionData >= 40 && Add32(commonFlag3, 3) < now) {
        over := true;
        return;
      }
      if commonFlag2 % 100 >= 30 {
        if barriers == 0 {
          preBarriers := [];
          barriers, exits := barriers + 1, exits + 1;
        }
        return;
      }
      if commonFlag3 == 0 {
        commonFlag3 := Add32(now, 2);
        return;
      }
      if Add32(commonFlag3, 3) < now {
        commonFlag3 := now;
        commonFlag1, preBarriers := NextWave(battleSectionData, r);
        battleSectionData := battleSectionData + 1;
      }
    }

    method HitMechanism(cell: nat, now: nat) returns (x: nat)
      requires cell < |preBarriers| && preBarriers[cell] <= 3 && (commonFlag1 <= 8 || commonFlag1 == SPENT)
      modifies this
      ensures State() == HitStage(old(State()), cell, now) && x == HitAnswer(old(State()), cell)
    {
      if commonFlag1 > 9 {
        return 0;
      }
      x := 1;
      var colour := preBarriers[cell];
      if colour == 0 {
        commonFlag2 := commonFlag2 + 100;
        x := 3;
      } else if colour == 1 {
        if commonFlag1 <= 2 {
          commonFlag2 := commonFlag2 + 1;
        } else if commonFlag1 < 9 {
          commonFlag2 := commonFlag2 + 100;
          x := 3;
        }
      } else if colour == 2 {
        if commonFlag1 > 2 && commonFlag1 <= 5 {
          commonFlag2 := commonFlag2 + 1;
        } else if commonFlag1 < 9 {
          commonFlag2 := commonFlag2 + 100;
          x := 3;
        }
      } else if colour == 3 {
        if commonFlag1 > 5 && commonFlag1 <= 8 {
          commonFlag2 := commonFlag2 + 1;
        } else if commonFlag1 < 9 {
          commonFlag2 := commonFlag2 + 100;
          x := 3;
        }
      }
      if x == 1 {
        correct := correct + 1;
      } else {
        wrong := wrong + 1;
      }
      commonFlag3 := Sub32(now, 2);
      commonFlag1 := SPENT;
    }
  }
}
