/**
  Counting the worn pieces of each suit in a seven-slot table and adding up
  the suit bonuses (gf/battle_svr/player_attribute.cpp).
 */
module SuitTable {

  const SLOTS := 7
  const MAX_SUIT := 500

  datatype Slot = Slot(suit: nat, cnt: nat)

  type Table = seq<Slot>

  /** A worn piece: its suit, 0 for a piece outside every suit; None for an unknown item. */
  datatype Piece = Unknown | Piece(suit: nat)

  function SuitOf(p: Piece): nat { if p.Piece? then p.suit else 0 }

  function Suits(clothes: seq<Piece>): seq<nat> {
    if clothes == [] then []
    else Suits(clothes[..|clothes| - 1])
         + (if SuitOf(clothes[|clothes| - 1]) == 0 then [] else [SuitOf(clothes[|clothes| - 1])])
  }

  function Empty(): Table { seq(SLOTS, _ => Slot(0, 0)) }

  /** First fit: the suit's own slot or else the first unused one; a full table drops the piece. */
  function AddTo(t: Table, suit: nat): (r: Table)
    ensures |r| == |t|
  {
    if t == [] then []
    else if t[0].suit == suit then [Slot(suit, t[0].cnt + 1)] + t[1..]
    else if t[0].suit == 0 then [Slot(suit, 1)] + t[1..]
    else [t[0]] + AddTo(t[1..], suit)
  }

  /** The table after the pieces of these suits, in wearing order. */
  function TableOf(suits: seq<nat>): (t: Table)
    ensures |t| == SLOTS
  {
    if suits == [] then Empty() else AddTo(TableOf(suits[..|suits| - 1]), suits[|suits| - 1])
  }

  lemma Snoc(clothes: seq<Piece>, i: nat)
    requires i < |clothes|
    ensures var suits, suit := Suits(clothes[..i]), SuitOf(clothes[i]);
            && Suits(clothes[..i + 1]) == suits + (if suit == 0 then [] else [suit])
            && (suit == 0 ==> Suits(clothes[..i + 1]) == suits)
            && (suit != 0 ==> TableOf(Suits(clothes[..i + 1])) == AddTo(TableOf(suits), suit))
  {
    assert clothes[..i + 1][..i] == clothes[..i];
    var suits, suit := Suits(clothes[..i]), SuitOf(clothes[i]);
    assert (suits + [suit])[..|suits|] == suits;
  }

  /** One more slot seen: it holds another suit. */
  lemma AddToSkips(t: Table, suit: nat, j: nat)
    requires j < |t| && suit != 0
    ensures var rest := AddTo(t[j..], suit);
            if t[j].suit == suit then t[..j] + rest == t[j := Slot(suit, t[j].cnt + 1)]
            else if t[j].suit == 0 then t[..j] + rest == t[j := Slot(suit, 1)]
            else t[..j] + rest == t[..j + 1] + AddTo(t[j + 1..], suit)
  {
    assert t[j..][1..] == t[j + 1..];
    assert t == t[..j] + [t[j]] + t[j + 1..];
  }

  /** The slot search of `get_player_suit_info`: equal suit first, unused slot second. */
  method AddPiece(arr: array<Slot>, suit: nat)
    requires suit != 0
    modifies arr
    ensures arr[..] == AddTo(old(arr[..]), suit)
  {
    ghost var before := arr[..];
    assert before[..0] + AddTo(before[0..], suit) == AddTo(before, suit) by { assert before[0..] == before; }
    for j := 0 to arr.Length
      invariant arr[..] == before
      invariant before[..j] + AddTo(before[j..], suit) == AddTo(before, suit)
    {
      AddToSkips(before, suit, j);
      if arr[j].suit == suit {
        arr[j] := Slot(suit, arr[j].cnt + 1);
        return;
      }
      if arr[j].suit == 0 {
        arr[j] := Slot(suit, 1);
        return;
      }
    }
    assert before[..arr.Length] + AddTo(before[arr.Length..], suit) == before;
  }

  /** The slot search inlined in `calc_player_attr_by_suit`: unused slot first, equal suit second. */
  method AddPieceInline(arr: array<Slot>, suit: nat)
    requires suit != 0
    modifies arr
    ensures arr[..] == AddTo(old(arr[..]), suit)
  {
    ghost var before := arr[..];
    assert before[..0] + AddTo(before[0..], suit) == AddTo(before, suit) by { assert before[0..] == before; }
    for j := 0 to arr.Length
      invariant arr[..] == before
      invariant before[..j] + AddTo(before[j..], suit) == AddTo(before, suit)
    {
      AddToSkips(before, suit, j);
      if arr[j].suit == 0 {
        arr[j] := Slot(suit, 1);
        return;
      }
      if arr[j].suit == suit {
        arr[j] := Slot(suit, arr[j].cnt + 1);
        return;
      }
    }
    assert before[..arr.Length] + AddTo(before[arr.Length..], suit) == before;
  }

  /** `get_player_suit_info`. */
  method GetPlayerSuitInfo(clothes: seq<Piece>, arr: array<Slot>)
    requires arr[..] == Empty()
    modifies arr
    ensures arr[..] == TableOf(Suits(clothes))
  {
    for i := 0 to |clothes|
      invariant arr[..] == TableOf(Suits(clothes[..i]))
    {
      Snoc(clothes, i);
      if clothes[i].Piece? {
        var suit := clothes[i].suit;
        if suit != 0 {
          AddPiece(arr, suit);
        }
      }
    }
    assert clothes[..|clothes|] == clothes;
  }

  /** The older grouping, which assumes every item is known: it fills the same table. */
  method GroupInline(clothes: seq<Piece>, arr: array<Slot>)
    requires arr[..] == Empty()
    requires forall i :: 0 <= i < |clothes| ==> clothes[i].Piece?
    modifies arr
    ensures arr[..] == TableOf(Suits(clothes))
  {
    for i := 0 to |clothes|
      invariant arr[..] == TableOf(Suits(clothes[..i]))
    {
      Snoc(clothes, i);
      var suit := clothes[i].suit;
      if suit == 0 {
        continue;
      }
      AddPieceInline(arr, suit);
    }
    assert clothes[..|clothes|] == clothes;
  }

  // ---- The table against the histogram -----------------------------------

  /** Pieces of `suit` recorded in the used prefix of the table. */
  function Recorded(t: Table, suit: nat): nat {
    if t == [] || t[0].suit == 0 then 0
    else if t[0].suit == suit then t[0].cnt
    else Recorded(t[1..], suit)
  }

  /** The suits of the used prefix. */
  function Held(t: Table): set<nat> {
    if t == [] || t[0].suit == 0 then {} else {t[0].suit} + Held(t[1..])
  }

  function UsedSlots(t: Table): (n: nat)
    ensures n <= |t|
  {
    if t == [] || t[0].suit == 0 then 0 else 1 + UsedSlots(t[1..])
  }

  /** Used slots are a prefix of different suits; behind them every slot is untouched. */
  ghost predicate Packed(t: Table) {
    && UsedSlots(t) == |Held(t)|
    && forall i :: UsedSlots(t) <= i < |t| ==> t[i] == Slot(0, 0)
  }

  /** Is there a slot for this suit? */
  predicate Room(t: Table, suit: nat) { suit in Held(t) || UsedSlots(t) < |t| }

  lemma CardOfInsert(s: set<nat>, x: nat)
    ensures |s + {x}| == |s| + (if x in s then 0 else 1)
    ensures {x} + s == s + {x}
  {
    if x in s {
      assert s + {x} == s;
    }
  }

  lemma {:induction false} AddToHolds(t: Table, x: nat)
    requires x != 0 && Packed(t)
    ensures Held(AddTo(t, x)) == (if Room(t, x) then Held(t) + {x} else Held(t))
    decreases |t|
  {
    if t != [] && t[0].suit != x {
      if t[0].suit == 0 {
        assert t[1..] == [] || t[1..][0] == Slot(0, 0);
      } else {
        PackedTail(t);
        AddToHolds(t[1..], x);
        assert AddTo(t, x)[1..] == AddTo(t[1..], x);
      }
    }
  }

  lemma {:induction false} AddToUses(t: Table, x: nat)
    requires x != 0 && Packed(t)
    ensures UsedSlots(AddTo(t, x)) == UsedSlots(t) + (if Room(t, x) && x !in Held(t) then 1 else 0)
    decreases |t|
  {
    if t != [] && t[0].suit != x {
      if t[0].suit == 0 {
        assert t[1..] == [] || t[1..][0] == Slot(0, 0);
      } else {
        PackedTail(t);
        AddToUses(t[1..], x);
        assert AddTo(t, x)[1..] == AddTo(t[1..], x);
      }
    }
  }

  lemma {:induction false} AddToCounts(t: Table, x: nat, s: nat)
    requires x != 0 && s != 0 && Packed(t)
    ensures Recorded(AddTo(t, x), s) == Recorded(t, s) + (if s == x && Room(t, x) then 1 else 0)
    decreases |t|
  {
    if t != [] && t[0].suit != x {
      if t[0].suit == 0 {
        assert t[1..] == [] || t[1..][0] == Slot(0, 0);
      } else {
        PackedTail(t);
        AddToCounts(t[1..], x, s);
        assert AddTo(t, x)[1..] == AddTo(t[1..], x);
      }
    }
  }

  /** What one more piece does to a packed table. */
  lemma AddToEffect(t: Table, x: nat)
    requires x != 0 && Packed(t)
    ensures Packed(AddTo(t, x))
    ensures Held(AddTo(t, x)) == (if Room(t, x) then Held(t) + {x} else Held(t))
    ensures forall s :: s != 0 ==> Recorded(AddTo(t, x), s) == Recorded(t, s) + (if s == x && Room(t, x) then 1 else 0)
  {
    AddToHolds(t, x);
    AddToUses(t, x);
    CardOfInsert(Held(t), x);
    forall s | s != 0
      ensures Recorded(AddTo(t, x), s) == Recorded(t, s) + (if s == x && Room(t, x) then 1 else 0)
    {
      AddToCounts(t, x, s);
    }
    AddToTail(t, x);
  }

  /** Behind the used prefix nothing changes. */
  lemma {:induction false} AddToTail(t: Table, x: nat)
    requires x != 0 && Packed(t)
    ensures forall i :: UsedSlots(AddTo(t, x)) <= i < |t| ==> AddTo(t, x)[i] == Slot(0, 0)
    decreases |t|
  {
    if t != [] {
      var r := AddTo(t, x);
      if t[0].suit == x || t[0].suit == 0 {
        SameTailSameUse(r, t);
      } else {
        PackedTail(t);
        AddToTail(t[1..], x);
        assert r[1..] == AddTo(t[1..], x);
        forall i | UsedSlots(r) <= i < |t|
          ensures r[i] == Slot(0, 0)
        {
          assert r[i] == r[1..][i - 1];
        }
      }
    }
  }

  lemma SameTailSameUse(r: Table, t: Table)
    requires |r| == |t| > 0 && r[1..] == t[1..] && r[0].suit != 0 && Packed(t)
    ensures forall i :: UsedSlots(r) <= i < |t| ==> r[i] == Slot(0, 0)
  {
    forall i | UsedSlots(r) <= i < |t|
      ensures r[i] == Slot(0, 0)
    {
      assert r[i] == r[1..][i - 1] == t[1..][i - 1] == t[i];
    }
  }

  lemma {:induction false} HeldAtMostUsed(t: Table)
    ensures |Held(t)| <= UsedSlots(t) && 0 !in Held(t)
    decreases |t|
  {
    if t != [] && t[0].suit != 0 {
      HeldAtMostUsed(t[1..]);
    }
  }

  lemma PackedTail(t: Table)
    requires Packed(t) && t != [] && t[0].suit != 0
    ensures Packed(t[1..]) && t[0].suit !in Held(t[1..])
  {
    HeldAtMostUsed(t[1..]);
    CardOfInsert(Held(t[1..]), t[0].suit);
    forall i | UsedSlots(t[1..]) <= i < |t[1..]|
      ensures t[1..][i] == Slot(0, 0)
    {
      assert t[1..][i] == t[i + 1];
    }
  }

  /** The different suits worn. */
  function Worn(suits: seq<nat>): set<nat> { set s <- suits }

  ghost predicate Exact(t: Table, suits: seq<nat>) {
    forall s :: s != 0 ==> Recorded(t, s) == multiset(suits)[s]
  }

  lemma {:induction false} NotHeldNotRecorded(t: Table, s: nat)
    requires s !in Held(t)
    ensures Recorded(t, s) == 0
    decreases |t|
  {
    if t != [] && t[0].suit != 0 {
      NotHeldNotRecorded(t[1..], s);
    }
  }

  lemma WornGrows(p: seq<nat>, x: nat)
    ensures Worn(p + [x]) == Worn(p) + {x}
    ensures |Worn(p + [x])| == |Worn(p)| + (if x in Worn(p) then 0 else 1)
  {
    assert Worn(p + [x]) == Worn(p) + {x};
    CardOfInsert(Worn(p), x);
  }

  lemma {:induction false} TableInvariant(suits: seq<nat>)
    requires 0 !in suits
    ensures Packed(TableOf(suits)) && Held(TableOf(suits)) <= Worn(suits)
    ensures |Worn(suits)| <= SLOTS ==> Exact(TableOf(suits), suits) && Held(TableOf(suits)) == Worn(suits)
    decreases |suits|
  {
    if suits != [] {
      var p, x := suits[..|suits| - 1], suits[|suits| - 1];
      assert suits == p + [x];
      TableInvariant(p);
      AddToEffect(TableOf(p), x);
      WornGrows(p, x);
      assert multiset(suits) == multiset(p) + multiset{x};
    }
  }

  /**
    The first-fit table is the exact histogram of the worn suits, with the used
    slots as a prefix of different suits, if and only if at most seven
    different suits are worn.
   */
  lemma TableIsHistogramIffSevenSuits(suits: seq<nat>)
    requires 0 !in suits
    ensures Packed(TableOf(suits))
    ensures Exact(TableOf(suits), suits) <==> |Worn(suits)| <= 7
  {
    var t := TableOf(suits);
    TableInvariant(suits);
    if |Worn(suits)| > SLOTS {
      SubsetSize(Held(t), Worn(suits));
      assert Held(t) != Worn(suits);
      var s :| s in Worn(suits) && s !in Held(t);
      NotHeldNotRecorded(t, s);
      assert s in multiset(suits);
    }
  }

  lemma SubsetSize(a: set<nat>, b: set<nat>)
    requires a <= b
    ensures |a| <= |b|
  {
    assert b == a + (b - a);
  }

  // ---- More than seven suits -------------------------------------------

  /** The clothes are read in order; unknown items and pieces of no suit count for nothing. */
  lemma {:induction false} SuitsOfParts(a: seq<Piece>, b: seq<Piece>)
    ensures Suits(a + b) == Suits(a) + Suits(b)
    decreases |b|
  {
    if b == [] {
      assert a + b == a;
    } else {
      var n := |b| - 1;
      assert (a + b)[..|a + b| - 1] == a + b[..n];
      SuitsOfParts(a, b[..n]);
    }
  }

  lemma SuitsOfOne(p: Piece)
    ensures Suits([p]) == match p
                          case Unknown => []
                          case Piece(suit) => if suit == 0 then [] else [suit]
  {
    assert [p][..0] == [];
  }

  lemma {:induction false} EarlyOrLate(suits: seq<nat>, i: nat)
    requires 0 !in suits && i < |suits| && suits[i] !in suits[..i]
    ensures suits[i] in Held(TableOf(suits)) <==> |Worn(suits[..i])| < SLOTS
    ensures |Worn(suits[..i])| < SLOTS ==> Recorded(TableOf(suits), suits[i]) == multiset(suits)[suits[i]]
    decreases |suits|
  {
    var n := |suits| - 1;
    var p, x, s := suits[..n], suits[n], suits[i];
    assert suits == p + [x] && multiset(suits) == multiset(p) + multiset{x};
    TableInvariant(p);
    AddToEffect(TableOf(p), x);
    if i < n {
      assert p[..i] == suits[..i];
      EarlyOrLate(p, i);
      FullStaysFull(p, i);
    } else {
      NewSuit(p, x);
    }
  }

  /** A suit not worn before gets a slot exactly if fewer than seven others are worn. */
  lemma NewSuit(p: seq<nat>, x: nat)
    requires 0 !in p && x != 0 && x !in p
    ensures x !in Held(TableOf(p)) && multiset(p)[x] == 0 && Recorded(TableOf(p), x) == 0
    ensures Room(TableOf(p), x) <==> |Worn(p)| < SLOTS
  {
    TableInvariant(p);
    NotHeldNotRecorded(TableOf(p), x);
    if |Worn(p)| >= SLOTS {
      SevenFillTheTable(p);
    }
  }

  lemma {:induction false} SevenFillTheTable(p: seq<nat>)
    requires 0 !in p && |Worn(p)| >= SLOTS
    ensures UsedSlots(TableOf(p)) == SLOTS
    decreases |p|
  {
    assert Worn([]) == {};
    var q, x := p[..|p| - 1], p[|p| - 1];
    assert p == q + [x];
    TableInvariant(q);
    WornGrows(q, x);
    AddToUses(TableOf(q), x);
    if |Worn(q)| >= SLOTS {
      SevenFillTheTable(q);
    }
  }

  /** Once seven suits were worn before place `i`, a suit first worn there never gets a slot. */
  lemma FullStaysFull(p: seq<nat>, i: nat)
    requires 0 !in p && i < |p|
    ensures |Worn(p[..i])| >= SLOTS ==> UsedSlots(TableOf(p)) == SLOTS
  {
    if |Worn(p[..i])| >= SLOTS {
      assert Worn(p[..i]) <= Worn(p);
      SubsetSize(Worn(p[..i]), Worn(p));
      SevenFillTheTable(p);
    }
  }

  /**
    The whole table, however many suits are worn: the first seven suits in wearing
    order are counted exactly, and any later one not at all.
   */
  lemma FirstSevenSuitsCount(suits: seq<nat>, i: nat)
    requires 0 !in suits && i < |suits| && suits[i] !in suits[..i]
    ensures Recorded(TableOf(suits), suits[i]) ==
              if |Worn(suits[..i])| < 7 then multiset(suits)[suits[i]] else 0
  {
    EarlyOrLate(suits, i);
    if |Worn(suits[..i])| >= SLOTS {
      NotHeldNotRecorded(TableOf(suits), suits[i]);
    }
  }

  // ---- Bonuses -------------------------------------------------------------

  /** One integer attribute of a suit step; a step is configured when its piece count is nonzero. */
  datatype Step = Step(attireNum: nat, bonus: int)

  type Config = c: seq<seq<Step>> | |c| == MAX_SUIT + 1 && forall i :: 0 <= i < |c| ==> |c[i]| == SLOTS + 1
    witness seq(MAX_SUIT + 1, _ => seq(SLOTS + 1, _ => Step(0, 0)))

  function StepBonus(c: Config, suit: nat, n: nat): int
    requires suit <= MAX_SUIT && n <= SLOTS
  {
    if c[suit][n].attireNum != 0 then c[suit][n].bonus else 0
  }

  /** The bonus of wearing `n` pieces of one suit: every configured step up to n. */
  function SuitBonus(c: Config, suit: nat, n: nat): int
    requires suit <= MAX_SUIT && n <= SLOTS
  {
    if n == 0 then 0 else StepBonus(c, suit, n) + SuitBonus(c, suit, n - 1)
  }

  ghost predicate InRange(t: Table) {
    forall i :: 0 <= i < |t| ==> t[i].suit <= MAX_SUIT && t[i].cnt <= SLOTS
  }

  function TableBonus(c: Config, t: Table): int
    requires InRange(t)
  {
    if t == [] || t[0].suit == 0 then 0 else SuitBonus(c, t[0].suit, t[0].cnt) + TableBonus(c, t[1..])
  }

  /** `calc_player_suit_base_attr` and its siblings, for one attribute. */
  method CalcPlayerSuitAttr(c: Config, arr: array<Slot>) returns (sum: int)
    requires InRange(arr[..])
    ensures sum == TableBonus(c, arr[..])
  {
    sum := 0;
    ghost var t := arr[..];
    assert t[0..] == t;
    for i := 0 to arr.Length
      invariant sum + TableBonus(c, t[i..]) == TableBonus(c, t)
    {
      assert t[i..][1..] == t[i + 1..];
      var suit := arr[i].suit;
      assert t[i] == arr[i];
      if suit == 0 {
        return;
      }
      ghost var base := sum;
      var n: nat := arr[i].cnt;
      while n > 0
        invariant n <= arr[i].cnt
        invariant sum + SuitBonus(c, suit, n) == base + SuitBonus(c, suit, arr[i].cnt)
      {
        if c[suit][n].attireNum != 0 {
          sum := sum + c[suit][n].bonus;
        }
        n := n - 1;
      }
    }
  }

  /** The reference: suit by suit, no order of clothes in sight. */
  function HistogramBonus(c: Config, h: multiset<nat>, k: nat): int
    requires k <= MAX_SUIT && forall s :: h[s] <= SLOTS
  {
    if k == 0 then 0 else SuitBonus(c, k, h[k]) + HistogramBonus(c, h, k - 1)
  }

  lemma {:induction false} OnePieceMoreInHistogram(c: Config, h: multiset<nat>, x: nat, k: nat)
    requires k <= MAX_SUIT && 1 <= x <= MAX_SUIT && h[x] < SLOTS
    requires forall s :: h[s] <= SLOTS
    requires forall s :: (h + multiset{x})[s] <= SLOTS
    ensures HistogramBonus(c, h + multiset{x}, k)
         == HistogramBonus(c, h, k) + (if x <= k then StepBonus(c, x, h[x] + 1) else 0)
    decreases k
  {
    if k > 0 {
      OnePieceMoreInHistogram(c, h, x, k - 1);
    }
  }

  lemma {:induction false} OnePieceMoreInTable(c: Config, t: Table, x: nat)
    requires InRange(t) && 1 <= x <= MAX_SUIT && Packed(t) && Room(t, x) && Recorded(t, x) < SLOTS
    ensures InRange(AddTo(t, x))
    ensures TableBonus(c, AddTo(t, x)) == TableBonus(c, t) + StepBonus(c, x, Recorded(t, x) + 1)
    decreases |t|
  {
    var r := AddTo(t, x);
    if t[0].suit == x {
    } else if t[0].suit == 0 {
      assert t[1..] == [] || t[1..][0] == Slot(0, 0);
      assert SuitBonus(c, x, 1) == StepBonus(c, x, 1) + SuitBonus(c, x, 0);
    } else {
      PackedTail(t);
      assert InRange(t[1..]);
      OnePieceMoreInTable(c, t[1..], x);
      assert r[1..] == AddTo(t[1..], x);
      forall i | 0 <= i < |r|
        ensures r[i].suit <= MAX_SUIT && r[i].cnt <= SLOTS
      {
        if i > 0 {
          assert r[i] == r[1..][i - 1];
        }
      }
    }
  }

  /** What the bonus loops ask of the worn suits: known ids, at most seven suits, at most seven pieces of each. */
  ghost predicate Wearable(suits: seq<nat>) {
    && (forall i :: 0 <= i < |suits| ==> 1 <= suits[i] <= MAX_SUIT)
    && |Worn(suits)| <= SLOTS
    && (forall s :: multiset(suits)[s] <= SLOTS)
  }

  /** One piece more adds the step of its suit that it completes. */
  lemma OnePieceMoreWorn(c: Config, p: seq<nat>, x: nat)
    requires Wearable(p + [x])
    ensures Wearable(p) && multiset(p)[x] < SLOTS && 1 <= x <= MAX_SUIT
    ensures InRange(TableOf(p)) && InRange(TableOf(p + [x]))
    ensures TableBonus(c, TableOf(p + [x])) == TableBonus(c, TableOf(p)) + StepBonus(c, x, multiset(p)[x] + 1)
  {
    WearableWithoutLast(p, x);
    WearableInRange(c, p);
    RoomForOneMore(p, x);
    assert (p + [x])[..|p|] == p;
    OnePieceMoreInTable(c, TableOf(p), x);
  }

  lemma RoomForOneMore(p: seq<nat>, x: nat)
    requires Wearable(p) && Wearable(p + [x]) && x != 0
    ensures Packed(TableOf(p)) && Room(TableOf(p), x) && Recorded(TableOf(p), x) == multiset(p)[x]
  {
    TableInvariant(p);
    RoomForWorn(p, x);
  }

  lemma {:induction false} WearableInRange(c: Config, suits: seq<nat>)
    requires Wearable(suits)
    ensures InRange(TableOf(suits))
    decreases |suits|
  {
    if suits != [] {
      var p, x := suits[..|suits| - 1], suits[|suits| - 1];
      assert suits == p + [x];
      WearableWithoutLast(p, x);
      WearableInRange(c, p);
      RoomForOneMore(p, x);
      OnePieceMoreInTable(c, TableOf(p), x);
    }
  }

  lemma {:induction false} TableBonusIsHistogramBonus(c: Config, suits: seq<nat>)
    requires Wearable(suits)
    ensures InRange(TableOf(suits))
    ensures TableBonus(c, TableOf(suits)) == HistogramBonus(c, multiset(suits), MAX_SUIT)
    decreases |suits|
  {
    if suits == [] {
      NothingWorn(c, MAX_SUIT);
      assert multiset(suits) == multiset{};
    } else {
      var p, x := suits[..|suits| - 1], suits[|suits| - 1];
      assert suits == p + [x] && multiset(suits) == multiset(p) + multiset{x};
      OnePieceMoreWorn(c, p, x);
      TableBonusIsHistogramBonus(c, p);
      OnePieceMoreInHistogram(c, multiset(p), x, MAX_SUIT);
    }
  }

  /**
    Piece by piece: the n-th piece of a suit adds the bonus of that suit's step n, if
    the configuration has one.
   */
  function PieceByPiece(c: Config, suits: seq<nat>): int
    requires Wearable(suits)
    decreases |suits|
  {
    if suits == [] then 0
    else
      var p, x := suits[..|suits| - 1], suits[|suits| - 1];
      assert suits == p + [x];
      WearableWithoutLast(p, x);
      var step := c[x][multiset(p)[x] + 1];
      PieceByPiece(c, p) + if step.attireNum == 0 then 0 else step.bonus
  }

  /** The bonus loops over the table give every piece its step. */
  lemma {:induction false} TableBonusIsPieceByPiece(c: Config, suits: seq<nat>)
    requires Wearable(suits)
    ensures InRange(TableOf(suits)) && TableBonus(c, TableOf(suits)) == PieceByPiece(c, suits)
    decreases |suits|
  {
    if suits != [] {
      var p, x := suits[..|suits| - 1], suits[|suits| - 1];
      assert suits == p + [x];
      OnePieceMoreWorn(c, p, x);
      TableBonusIsPieceByPiece(c, p);
    }
  }

  lemma WearableWithoutLast(p: seq<nat>, x: nat)
    requires Wearable(p + [x])
    ensures Wearable(p) && 1 <= x <= MAX_SUIT && multiset(p)[x] < SLOTS
  {
    var all := p + [x];
    forall i | 0 <= i < |p|
      ensures 1 <= p[i] <= MAX_SUIT
    {
      assert p[i] == all[i];
    }
    assert x == all[|p|];
    assert Worn(p) <= Worn(all);
    SubsetSize(Worn(p), Worn(all));
    forall s
      ensures multiset(p)[s] <= SLOTS
    {
      assert multiset(p)[s] <= multiset(all)[s];
    }
    assert multiset(all)[x] == multiset(p)[x] + 1;
  }

  lemma RoomForWorn(p: seq<nat>, x: nat)
    requires 0 !in p && x != 0 && |Worn(p + [x])| <= SLOTS
    ensures Room(TableOf(p), x)
  {
    assert Worn(p + [x]) == Worn(p) + {x};
    if x !in Worn(p) {
      TableInvariant(p);
      assert |Worn(p + [x])| == |Worn(p)| + 1;
    } else {
      assert Worn(p + [x]) == Worn(p);
      TableInvariant(p);
    }
  }

  lemma {:induction false} NothingWorn(c: Config, k: nat)
    requires k <= MAX_SUIT
    ensures HistogramBonus(c, multiset{}, k) == 0
    decreases k
  {
    if k > 0 {
      NothingWorn(c, k - 1);
    }
  }

  /** Every integer suit bonus depends on which pieces are worn, not on the order they are listed in. */
  lemma BonusIsOrderIndependent(c: Config, a: seq<nat>, b: seq<nat>)
    requires Wearable(a) && multiset(a) == multiset(b)
    ensures Wearable(b) && InRange(TableOf(a)) && InRange(TableOf(b))
    ensures TableBonus(c, TableOf(a)) == TableBonus(c, TableOf(b))
  {
    forall i | 0 <= i < |b|
      ensures 1 <= b[i] <= MAX_SUIT
    {
      assert b[i] in multiset(a);
    }
    assert Worn(a) == Worn(b) by {
      assert forall s :: s in Worn(a) <==> s in multiset(a);
      assert forall s :: s in Worn(b) <==> s in multiset(b);
    }
    TableBonusIsHistogramBonus(c, a);
    TableBonusIsHistogramBonus(c, b);
  }
}
