/**
  Recalculating after an insertion writes at every new label the value that recalculating before it
  writes at the old one, cyclic cells included: the two runs go in step, memo by memo.
 */
module RecalcFollows {
  import opened Text
  import opened FormulaSyntax
  import opened FormulaEval
  import opened Coords
  import opened StructuralEdit
  import opened EditMeaning
  import opened Recalc
  import opened RecalcSound
  import opened SheetEdit
  import FormulaParser

  // ----- Two runs in step -----

  // The memo of the moved sheet has the same entries at the new labels, and blanks in the band.
  ghost predicate MemoFollows(edit: Edit, memo: Memo, moved: Memo) {
    && (forall c: CellCoord :: InBounds(c) ==>
          && (Label(c) in memo <==> Label(Shift(edit, c)) in moved)
          && (Label(c) in memo ==> moved[Label(Shift(edit, c))] == memo[Label(c)]))
    && (forall d: CellCoord :: InBounds(d) && InBand(edit, d) && Label(d) in moved ==> moved[Label(d)] == Null)
  }

  ghost predicate VisitFollows(edit: Edit, visiting: set<string>, moved: set<string>) {
    && (forall c: CellCoord :: InBounds(c) ==> (Label(c) in visiting <==> Label(Shift(edit, c)) in moved))
    && (forall d: CellCoord :: InBounds(d) && InBand(edit, d) ==> Label(d) !in moved)
  }

  // Two programs, one moved, and the cells each is visiting.
  datatype Pair = Pair(p: Program, q: Program, visiting: set<string>, moved: set<string>)

  ghost predicate InStep(edit: Edit, x: Pair) {
    && Insertion(edit)
    && MovedProgram(edit, x.p, x.q)
    && AllFollow(edit, x.p)
    && VisitFollows(edit, x.visiting, x.moved)
  }

  function Visit(edit: Edit, x: Pair, c: CellCoord): Pair {
    x.(visiting := x.visiting + {Label(c)}, moved := x.moved + {Label(Shift(edit, c))})
  }

  lemma ShiftedLabels(edit: Edit, c: CellCoord, d: CellCoord)
    requires Insertion(edit) && InBounds(c) && InBounds(d)
    ensures InBounds(Shift(edit, d)) && !InBand(edit, Shift(edit, d))
    ensures Label(d) == Label(c) <==> d == c
    ensures Label(Shift(edit, d)) == Label(Shift(edit, c)) <==> d == c
    ensures InBand(edit, c) ==> Label(Shift(edit, d)) != Label(c)
  {
    hide Label;
    LabelEqualIff(d, c);
    LabelEqualIff(Shift(edit, d), Shift(edit, c));
    LabelEqualIff(Shift(edit, d), c);
    ShiftInjective(edit, c, d);
  }

  lemma VisitInStep(edit: Edit, x: Pair, c: CellCoord)
    requires InStep(edit, x) && InBounds(c)
    ensures InStep(edit, Visit(edit, x, c))
  {
    hide Label, Shift, InBand, Insertion, MovedProgram, AllFollow;
    var y := Visit(edit, x, c);
    forall d: CellCoord | InBounds(d)
      ensures Label(d) in y.visiting <==> Label(Shift(edit, d)) in y.moved
    {
      ShiftedLabels(edit, c, d);
    }
    forall d: CellCoord | InBounds(d) && InBand(edit, d)
      ensures Label(d) !in y.moved
    {
      ShiftedLabels(edit, d, c);
    }
  }

  lemma MemoStores(edit: Edit, memo: Memo, moved: Memo, c: CellCoord, v: CellValue)
    requires Insertion(edit) && MemoFollows(edit, memo, moved) && InBounds(c)
    ensures MemoFollows(edit, memo[Label(c) := v], moved[Label(Shift(edit, c)) := v])
  {
    hide Label, Shift, InBand, Insertion;
    var a, b := memo[Label(c) := v], moved[Label(Shift(edit, c)) := v];
    forall d: CellCoord | InBounds(d)
      ensures Label(d) in a <==> Label(Shift(edit, d)) in b
      ensures Label(d) in a ==> b[Label(Shift(edit, d))] == a[Label(d)]
    {
      ShiftedLabels(edit, c, d);
    }
    forall d: CellCoord | InBounds(d) && InBand(edit, d) && Label(d) in b
      ensures b[Label(d)] == Null
    {
      ShiftedLabels(edit, d, c);
    }
  }

  lemma MemoBlank(edit: Edit, memo: Memo, moved: Memo, d: CellCoord)
    requires Insertion(edit) && MemoFollows(edit, memo, moved) && InBounds(d) && InBand(edit, d)
    ensures MemoFollows(edit, memo, moved[Label(d) := Null])
  {
    hide Label, Shift, InBand, Insertion;
    forall c: CellCoord | InBounds(c)
      ensures Label(Shift(edit, c)) != Label(d)
    {
      ShiftedLabels(edit, d, c);
    }
  }

  // Equal values and memos still in step.
  ghost predicate Follow<T>(edit: Edit, a: Result<T>, b: Result<T>) {
    a.value == b.value && MemoFollows(edit, a.memo, b.memo)
  }

  // Values equal up to blanks, with the same first value, and memos still in step.
  ghost predicate FollowList(edit: Edit, a: Result<seq<CellValue>>, b: Result<seq<CellValue>>) {
    Compact(a.value) == Compact(b.value) && MemoFollows(edit, a.memo, b.memo)
  }

  ghost predicate SameFirst(a: seq<CellValue>, b: seq<CellValue>) {
    (a == [] <==> b == []) && (a != [] && b != [] ==> a[0] == b[0])
  }

  // ----- One cell -----

  lemma {:induction false} ResolveFollows(h: Host, edit: Edit, x: Pair, c: CellCoord, memo: Memo, moved: Memo)
    requires InStep(edit, x) && InBounds(c) && MemoFollows(edit, memo, moved)
    ensures Follow(edit, Resolve(h, x.p, Label(c), x.visiting, memo), Resolve(h, x.q, Label(Shift(edit, c)), x.moved, moved))
    decreases x.p.Keys - x.visiting, 0
  {
    hide Label, Normalize, Evaluate, Rewrite, Follows, InBand, Shift, Insertion;
    var key, target := Label(c), Label(Shift(edit, c));
    ShiftedLabels(edit, c, c);
    LabelIsNormal(c);
    LabelIsNormal(Shift(edit, c));
    CellFollows(edit, x, c, memo, moved);
    if key !in memo && key !in x.visiting && key in x.p && x.p[key].Computed? {
      assert key in x.p.Keys - x.visiting;
      VisitInStep(edit, x, c);
      var e, y := x.p[key].e, Visit(edit, x, c);
      EvaluateFollows(h, edit, y, e, memo, moved);
      var r := Evaluate(h, x.p, e, y.visiting, memo);
      hide MovedProgram, AllFollow, VisitFollows, MemoFollows;
      MemoStores(edit, r.memo, Evaluate(h, x.q, Rewrite(edit, e), y.moved, moved).memo, c, r.value);
    } else {
      hide MovedProgram, AllFollow, VisitFollows, MemoFollows;
      MemoStores(edit, memo, moved, c, PlainValue(x.p, key));
    }
  }

  // What the two runs find at a cell.
  lemma CellFollows(edit: Edit, x: Pair, c: CellCoord, memo: Memo, moved: Memo)
    requires InStep(edit, x) && InBounds(c) && MemoFollows(edit, memo, moved)
    ensures var key, target := Label(c), Label(Shift(edit, c));
            && (key in memo <==> target in moved) && (key in memo ==> moved[target] == memo[key])
            && (key in x.visiting <==> target in x.moved)
            && (key in x.p <==> target in x.q)
            && (key in x.p ==> x.q[target] == MovedDef(edit, x.p[key]))
            && (key in x.p && x.p[key].Computed? ==> Follows(edit, x.p[key].e))
  {
    hide Label, Rewrite, Follows, InBand, Shift, Insertion;
  }

  // A cell of the band resolves to a blank.
  lemma BandFollows(h: Host, edit: Edit, x: Pair, d: CellCoord, memo: Memo, moved: Memo)
    requires InStep(edit, x) && InBounds(d) && InBand(edit, d) && MemoFollows(edit, memo, moved)
    ensures var r := Resolve(h, x.q, Label(d), x.moved, moved);
            r.value == Null && MemoFollows(edit, memo, r.memo)
  {
    hide Label, Normalize, Evaluate, AllFollow, InBand, Shift, Insertion;
    LabelIsNormal(d);
    BandIsEmpty(edit, x, d, memo, moved);
    hide MovedProgram, VisitFollows, MemoFollows;
    MemoBlank(edit, memo, moved, d);
  }

  lemma BandIsEmpty(edit: Edit, x: Pair, d: CellCoord, memo: Memo, moved: Memo)
    requires InStep(edit, x) && InBounds(d) && InBand(edit, d) && MemoFollows(edit, memo, moved)
    ensures Label(d) !in x.q && Label(d) !in x.moved && (Label(d) in moved ==> moved[Label(d)] == Null)
  {
    hide Label, AllFollow, InBand, Shift, Insertion;
  }

  lemma LabelsUnfold(h: Host, p: Program, cells: seq<CellCoord>, visiting: set<string>, memo: Memo)
    requires cells != []
    ensures var first := Resolve(h, p, Label(cells[0]), visiting, memo);
            var rest := ResolveLabels(h, p, Labels(cells[1..]), visiting, first.memo);
            ResolveLabels(h, p, Labels(cells), visiting, memo) == Result([first.value] + rest.value, rest.memo)
  {
    hide Resolve, Label;
    assert Labels(cells)[1..] == Labels(cells[1..]);
  }

  lemma NoCells(h: Host, p: Program, visiting: set<string>, memo: Memo)
    ensures ResolveLabels(h, p, Labels([]), visiting, memo) == Result([], memo)
  {
  }

  lemma NothingKept(edit: Edit, cells: seq<CellCoord>)
    requires Kept(edit, []) == Shifted(edit, cells)
    ensures cells == []
  {
  }

  // The cells of a grown range, with the band in between.
  lemma {:induction false} LabelsFollow(h: Host, edit: Edit, x: Pair, cells: seq<CellCoord>, grown: seq<CellCoord>, memo: Memo, moved: Memo)
    requires InStep(edit, x) && MemoFollows(edit, memo, moved) && Kept(edit, grown) == Shifted(edit, cells)
    requires (forall c :: c in cells ==> InBounds(c)) && (forall c :: c in grown ==> InBounds(c))
    ensures var a := ResolveLabels(h, x.p, Labels(cells), x.visiting, memo);
            var b := ResolveLabels(h, x.q, Labels(grown), x.moved, moved);
            && FollowList(edit, a, b)
            && (grown != [] && !InBand(edit, grown[0]) ==> SameFirst(a.value, b.value))
    decreases x.p.Keys - x.visiting, 1, |grown|
  {
    hide Label, Labels, Resolve, ResolveLabels, InStep, MemoFollows, InBand, Shift, Compact, Kept, Shifted;
    if grown == [] {
      NothingKept(edit, cells);
      NoCells(h, x.p, x.visiting, memo);
      NoCells(h, x.q, x.moved, moved);
    } else if InBand(edit, grown[0]) {
      BandFirst(edit, grown);
      BandFollows(h, edit, x, grown[0], memo, moved);
      var first := Resolve(h, x.q, Label(grown[0]), x.moved, moved);
      LabelsFollow(h, edit, x, cells, grown[1..], memo, first.memo);
      LabelsUnfold(h, x.q, grown, x.moved, moved);
      BlankFirst(ResolveLabels(h, x.q, Labels(grown[1..]), x.moved, first.memo).value);
    } else {
      GrownHead(edit, cells, grown);
      ResolveFollows(h, edit, x, cells[0], memo, moved);
      var a := Resolve(h, x.p, Label(cells[0]), x.visiting, memo);
      var b := Resolve(h, x.q, Label(grown[0]), x.moved, moved);
      LabelsFollow(h, edit, x, cells[1..], grown[1..], a.memo, b.memo);
      LabelsUnfold(h, x.p, cells, x.visiting, memo);
      LabelsUnfold(h, x.q, grown, x.moved, moved);
      OneMore(a.value, ResolveLabels(h, x.p, Labels(cells[1..]), x.visiting, a.memo).value,
              ResolveLabels(h, x.q, Labels(grown[1..]), x.moved, b.memo).value);
    }
  }

  lemma BandFirst(edit: Edit, grown: seq<CellCoord>)
    requires grown != [] && InBand(edit, grown[0])
    ensures Kept(edit, grown) == Kept(edit, grown[1..])
  {
    hide InBand;
    assert [] + Kept(edit, grown[1..]) == Kept(edit, grown[1..]);
  }

  lemma GrownHead(edit: Edit, cells: seq<CellCoord>, grown: seq<CellCoord>)
    requires Kept(edit, grown) == Shifted(edit, cells) && grown != [] && !InBand(edit, grown[0])
    ensures cells != [] && grown[0] == Shift(edit, cells[0])
    ensures Kept(edit, grown[1..]) == Shifted(edit, cells[1..])
  {
    hide InBand, Shift;
    assert Kept(edit, grown)[1..] == Kept(edit, grown[1..]);
    assert cells != [] && Shifted(edit, cells)[1..] == Shifted(edit, cells[1..]);
    assert Kept(edit, grown)[0] == Shifted(edit, cells)[0];
  }

  lemma BlankFirst(values: seq<CellValue>)
    ensures Compact([Null] + values) == Compact(values)
  {
    assert ([Null] + values)[1..] == values;
  }

  lemma OneMore(v: CellValue, a: seq<CellValue>, b: seq<CellValue>)
    requires Compact(a) == Compact(b)
    ensures Compact([v] + a) == Compact([v] + b)
  {
    assert ([v] + a)[1..] == a && ([v] + b)[1..] == b;
  }

  // ----- Expressions -----

  // The corners of a range, before and after.
  lemma GridCells(edit: Edit, a: CellCoord, b: CellCoord)
    requires Insertion(edit) && InBounds(a) && InBounds(b)
    ensures var cells, grown := Corners(a, b).Cells(), Corners(Shift(edit, a), Shift(edit, b)).Cells();
            && grown != [] && !InBand(edit, grown[0])
            && (forall c :: c in cells ==> InBounds(c)) && (forall c :: c in grown ==> InBounds(c))
  {
    var area, wide := Corners(a, b), Corners(Shift(edit, a), Shift(edit, b));
    FirstCell(area);
    FirstCell(wide);
    assert wide.Cells()[0] == Shift(edit, CellCoord(area.minCol, area.minRow));
    GridInBounds(area.minRow, area.maxRow, area.minCol, area.maxCol);
    GridInBounds(wide.minRow, wide.maxRow, wide.minCol, wide.maxCol);
    hide Grid;
  }

  lemma GridFollows(h: Host, edit: Edit, x: Pair, a: CellCoord, b: CellCoord, memo: Memo, moved: Memo)
    requires InStep(edit, x) && MemoFollows(edit, memo, moved) && InBounds(a) && InBounds(b)
    ensures var r := ResolveLabels(h, x.p, Labels(Corners(a, b).Cells()), x.visiting, memo);
            var s := ResolveLabels(h, x.q, Labels(Corners(Shift(edit, a), Shift(edit, b)).Cells()), x.moved, moved);
            FollowList(edit, r, s) && SameFirst(r.value, s.value)
    decreases x.p.Keys - x.visiting, 2, 0
  {
    assert Insertion(edit) by {
      hide MovedProgram, AllFollow, VisitFollows;
    }
    hide *;
    GridCells(edit, a, b);
    RectGrows(edit, a, b);
    LabelsFollow(h, edit, x, Corners(a, b).Cells(), Corners(Shift(edit, a), Shift(edit, b)).Cells(), memo, moved);
  }

  lemma RangeFollow(h: Host, edit: Edit, x: Pair, e: Expr, memo: Memo, moved: Memo)
    requires InStep(edit, x) && MemoFollows(edit, memo, moved) && e.Range? && RangeFollows(edit, e.start, e.end)
    ensures Rewrite(edit, e).Range?
    ensures var r := ResolveLabels(h, x.p, RangeLabels(e), x.visiting, memo);
            var s := ResolveLabels(h, x.q, RangeLabels(Rewrite(edit, e)), x.moved, moved);
            FollowList(edit, r, s) && SameFirst(r.value, s.value)
    decreases x.p.Keys - x.visiting, 2, 1
  {
    var a, b := ParseCoord(e.start.coord).value, ParseCoord(e.end.coord).value;
    assert Corners(a, b).Area() <= MAX_RANGE_CELLS ==>
        Corners(Shift(edit, a), Shift(edit, b)).Area() <= MAX_RANGE_CELLS by {
      hide ParseCoord;
    }
    assert Insertion(edit);
    RangePoints(edit, e.start, e.end);
    RangeRewritten(edit, e);
    hide *;
    PointMoves(edit, e.start);
    PointMoves(edit, e.end);
    AreaGrows(edit, a, b);
    GridFollows(h, edit, x, a, b, memo, moved);
    RangeLabelsAre(e, a, b);
    RangeLabelsAre(Rewrite(edit, e), Shift(edit, a), Shift(edit, b));
    NoLabels(h, edit, x, memo, moved);
  }

  lemma RangeLabelsAre(e: Expr, a: CellCoord, b: CellCoord)
    requires e.Range? && ParseCoord(e.start.coord) == Some(a) && ParseCoord(e.end.coord) == Some(b)
    ensures RangeLabels(e) == if Corners(a, b).Area() > MAX_RANGE_CELLS then [] else Labels(Corners(a, b).Cells())
  {
    hide ParseCoord, Labels;
  }

  lemma NoLabels(h: Host, edit: Edit, x: Pair, memo: Memo, moved: Memo)
    requires MemoFollows(edit, memo, moved)
    ensures var r := ResolveLabels(h, x.p, [], x.visiting, memo);
            var s := ResolveLabels(h, x.q, [], x.moved, moved);
            FollowList(edit, r, s) && SameFirst(r.value, s.value)
  {
  }

  lemma {:induction false} EvaluateFollows(h: Host, edit: Edit, x: Pair, e: Expr, memo: Memo, moved: Memo)
    requires InStep(edit, x) && MemoFollows(edit, memo, moved) && Follows(edit, e)
    ensures Follow(edit, Evaluate(h, x.p, e, x.visiting, memo), Evaluate(h, x.q, Rewrite(edit, e), x.moved, moved))
    decreases x.p.Keys - x.visiting, 3, e, 1
  {
    hide InStep, MemoFollows, RangeLabels, RangeFollows, PointFollows, CanonicalLabel, MutateRef, EvaluateCall, Compact;
    match e
    case Cell(ref) => ReferenceFollows(h, edit, x, e, memo, moved);
    case Range(start, end) => RangeFollow(h, edit, x, e, memo, moved);
    case Unary(_, y) => EvaluateFollows(h, edit, x, y, memo, moved);
    case Percent(y) => EvaluateFollows(h, edit, x, y, memo, moved);
    case Binary(_, left, right) =>
      EvaluateFollows(h, edit, x, left, memo, moved);
      EvaluateFollows(h, edit, x, right, Evaluate(h, x.p, left, x.visiting, memo).memo,
                      Evaluate(h, x.q, Rewrite(edit, left), x.moved, moved).memo);
    case Func(name, args) => CallFollows(h, edit, x, name, args, memo, moved);
    case Num(_) =>
    case Str(_) =>
    case Bool(_) =>
  }

  lemma ReferenceFollows(h: Host, edit: Edit, x: Pair, e: Expr, memo: Memo, moved: Memo)
    requires InStep(edit, x) && MemoFollows(edit, memo, moved) && e.Cell? && Follows(edit, e)
    ensures Follow(edit, Evaluate(h, x.p, e, x.visiting, memo), Evaluate(h, x.q, Rewrite(edit, e), x.moved, moved))
    decreases x.p.Keys - x.visiting, 3, e, 0
  {
    assert Insertion(edit);
    assert InBounds(ParseCoord(e.ref.coord).value) by {
      hide ParseCoord;
    }
    hide ParseCoord, Label, CanonicalLabel, MutateRef, InStep, MemoFollows, Resolve;
    CanonicalLabelParses(e.ref.coord);
    PointMoves(edit, e.ref);
    ResolveFollows(h, edit, x, ParseCoord(e.ref.coord).value, memo, moved);
    CellEvaluates(h, x.p, e, x.visiting, memo);
    CellEvaluates(h, x.q, Rewrite(edit, e), x.moved, moved);
  }

  lemma {:induction false} CallFollows(h: Host, edit: Edit, x: Pair, name: string, args: seq<Expr>, memo: Memo, moved: Memo)
    requires InStep(edit, x) && MemoFollows(edit, memo, moved)
    requires forall i :: 0 <= i < |args| ==> Follows(edit, args[i])
    ensures Follow(edit, EvaluateCall(h, x.p, name, args, x.visiting, memo),
                   EvaluateCall(h, x.q, name, RewriteArgs(edit, args), x.moved, moved))
    decreases x.p.Keys - x.visiting, 3, args, 3
  {
    hide InStep, MemoFollows, Follows, Follow, Rewrite, EvaluateCall;
    if name == "IF" {
      IfFollows(h, edit, x, args, memo, moved);
    } else if name == "ROUND" {
      RoundFollows(h, edit, x, args, memo, moved);
    } else if name == "MOD" {
      ModFollows(h, edit, x, args, memo, moved);
    } else {
      OtherFollows(h, edit, x, name, args, memo, moved);
    }
  }

  lemma {:induction false} OtherFollows(h: Host, edit: Edit, x: Pair, name: string, args: seq<Expr>, memo: Memo, moved: Memo)
    requires InStep(edit, x) && MemoFollows(edit, memo, moved) && name !in {"IF", "ROUND", "MOD"}
    requires forall i :: 0 <= i < |args| ==> Follows(edit, args[i])
    ensures Follow(edit, EvaluateCall(h, x.p, name, args, x.visiting, memo),
                   EvaluateCall(h, x.q, name, RewriteArgs(edit, args), x.moved, moved))
    decreases x.p.Keys - x.visiting, 3, args, 2
  {
    hide InStep, MemoFollows, Follows, Rewrite, Evaluate, EvaluateArgs, ListCall, UnaryCall;
    if name in UNARY_FUNCTIONS && |args| == 1 {
      FirstFollows(h, edit, x, args, memo, moved);
    } else if name in LIST_FUNCTIONS {
      ArgsFollow(h, edit, x, args, memo, moved);
      ListCallIgnoresBlanks(h, name, EvaluateArgs(h, x.p, args, x.visiting, memo).value);
      ListCallIgnoresBlanks(h, name, EvaluateArgs(h, x.q, RewriteArgs(edit, args), x.moved, moved).value);
    }
  }

  lemma {:induction false} IfFollows(h: Host, edit: Edit, x: Pair, args: seq<Expr>, memo: Memo, moved: Memo)
    requires InStep(edit, x) && MemoFollows(edit, memo, moved)
    requires forall i :: 0 <= i < |args| ==> Follows(edit, args[i])
    ensures Follow(edit, EvaluateCall(h, x.p, "IF", args, x.visiting, memo),
                   EvaluateCall(h, x.q, "IF", RewriteArgs(edit, args), x.moved, moved))
    decreases x.p.Keys - x.visiting, 3, args, 2
  {
    hide InStep, MemoFollows, Follows, Rewrite, Evaluate, ModCall, RoundCall, ToBoolean, ToNumber;
    if 2 <= |args| <= 3 {
      FirstFollows(h, edit, x, args, memo, moved);
      SecondFollows(h, edit, x, args, 1, memo, moved);
      if |args| == 3 {
        SecondFollows(h, edit, x, args, 2, memo, moved);
      }
    }
  }

  lemma {:induction false} RoundFollows(h: Host, edit: Edit, x: Pair, args: seq<Expr>, memo: Memo, moved: Memo)
    requires InStep(edit, x) && MemoFollows(edit, memo, moved)
    requires forall i :: 0 <= i < |args| ==> Follows(edit, args[i])
    ensures Follow(edit, EvaluateCall(h, x.p, "ROUND", args, x.visiting, memo),
                   EvaluateCall(h, x.q, "ROUND", RewriteArgs(edit, args), x.moved, moved))
    decreases x.p.Keys - x.visiting, 3, args, 2
  {
    hide InStep, MemoFollows, Follows, Rewrite, Evaluate, ModCall, RoundCall, ToBoolean, ToNumber;
    if 1 <= |args| <= 2 {
      FirstFollows(h, edit, x, args, memo, moved);
      if |args| == 2 {
        SecondFollows(h, edit, x, args, 1, memo, moved);
      }
    }
  }

  lemma {:induction false} ModFollows(h: Host, edit: Edit, x: Pair, args: seq<Expr>, memo: Memo, moved: Memo)
    requires InStep(edit, x) && MemoFollows(edit, memo, moved)
    requires forall i :: 0 <= i < |args| ==> Follows(edit, args[i])
    ensures Follow(edit, EvaluateCall(h, x.p, "MOD", args, x.visiting, memo),
                   EvaluateCall(h, x.q, "MOD", RewriteArgs(edit, args), x.moved, moved))
    decreases x.p.Keys - x.visiting, 3, args, 2
  {
    hide InStep, MemoFollows, Follows, Rewrite, Evaluate, ModCall, RoundCall, ToBoolean, ToNumber;
    if |args| == 2 {
      FirstFollows(h, edit, x, args, memo, moved);
      SecondFollows(h, edit, x, args, 1, memo, moved);
    }
  }

  lemma {:induction false} FirstFollows(h: Host, edit: Edit, x: Pair, args: seq<Expr>, memo: Memo, moved: Memo)
    requires InStep(edit, x) && MemoFollows(edit, memo, moved) && args != [] && Follows(edit, args[0])
    ensures Follow(edit, Evaluate(h, x.p, args[0], x.visiting, memo),
                   Evaluate(h, x.q, RewriteArgs(edit, args)[0], x.moved, moved))
    decreases x.p.Keys - x.visiting, 3, args[0], 2
  {
    hide InStep, MemoFollows, Follows, Rewrite, Evaluate;
    EvaluateFollows(h, edit, x, args[0], memo, moved);
  }

  // An argument evaluated after the first one.
  lemma {:induction false} SecondFollows(h: Host, edit: Edit, x: Pair, args: seq<Expr>, i: nat, memo: Memo, moved: Memo)
    requires InStep(edit, x) && MemoFollows(edit, memo, moved) && 0 < i < |args|
    requires forall k :: 0 <= k < |args| ==> Follows(edit, args[k])
    ensures var a := Evaluate(h, x.p, args[0], x.visiting, memo);
            var b := Evaluate(h, x.q, RewriteArgs(edit, args)[0], x.moved, moved);
            Follow(edit, Evaluate(h, x.p, args[i], x.visiting, a.memo), Evaluate(h, x.q, RewriteArgs(edit, args)[i], x.moved, b.memo))
    decreases x.p.Keys - x.visiting, 3, args, 0
  {
    hide InStep, MemoFollows, Follows, Rewrite, Evaluate;
    FirstFollows(h, edit, x, args, memo, moved);
    EvaluateFollows(h, edit, x, args[i], Evaluate(h, x.p, args[0], x.visiting, memo).memo,
                    Evaluate(h, x.q, RewriteArgs(edit, args)[0], x.moved, moved).memo);
  }

  lemma {:induction false} ArgsFollow(h: Host, edit: Edit, x: Pair, args: seq<Expr>, memo: Memo, moved: Memo)
    requires InStep(edit, x) && MemoFollows(edit, memo, moved)
    requires forall i :: 0 <= i < |args| ==> Follows(edit, args[i])
    ensures FollowList(edit, EvaluateArgs(h, x.p, args, x.visiting, memo),
                       EvaluateArgs(h, x.q, RewriteArgs(edit, args), x.moved, moved))
    decreases x.p.Keys - x.visiting, 3, args, 1
  {
    hide InStep, MemoFollows, Follows, Rewrite, EvaluateArg;
    if args != [] {
      ArgFollows(h, edit, x, args[0], memo, moved);
      var there := RewriteArgs(edit, args);
      assert there[1..] == RewriteArgs(edit, args[1..]);
      var a, b := EvaluateArg(h, x.p, args[0], x.visiting, memo), EvaluateArg(h, x.q, there[0], x.moved, moved);
      ArgsFollow(h, edit, x, args[1..], a.memo, b.memo);
      CompactAppend(a.value, EvaluateArgs(h, x.p, args[1..], x.visiting, a.memo).value);
      CompactAppend(b.value, EvaluateArgs(h, x.q, there[1..], x.moved, b.memo).value);
    }
  }

  lemma {:induction false} ArgFollows(h: Host, edit: Edit, x: Pair, arg: Expr, memo: Memo, moved: Memo)
    requires InStep(edit, x) && MemoFollows(edit, memo, moved) && Follows(edit, arg)
    ensures FollowList(edit, EvaluateArg(h, x.p, arg, x.visiting, memo),
                       EvaluateArg(h, x.q, Rewrite(edit, arg), x.moved, moved))
    decreases x.p.Keys - x.visiting, 3, arg, 2
  {
    assert Insertion(edit);
    RewriteKeepsShape(edit, arg);
    hide InStep, MemoFollows, Rewrite, Evaluate, RangeLabels, RangeFollows, ResolveLabels, Compact;
    if arg.Range? {
      RangeFollowing(edit, arg);
      RangeFollow(h, edit, x, arg, memo, moved);
    } else {
      EvaluateFollows(h, edit, x, arg, memo, moved);
    }
  }

  // ----- The whole sheet -----

  function CoordOf(key: string): CellCoord {
    var c := ParseCoord(key);
    if c.Some? then c.value else CellCoord(0, 0)
  }

  // The labels are the new labels of the keys, in the same order.
  ghost predicate KeysFollow(edit: Edit, keys: seq<string>, labels: seq<string>) {
    && |keys| == |labels|
    && forall i :: 0 <= i < |keys| ==>
         && InBounds(CoordOf(keys[i])) && keys[i] == Label(CoordOf(keys[i]))
         && labels[i] == Label(Shift(edit, CoordOf(keys[i])))
  }

  lemma OutcomeFollows(h: Host, edit: Edit, p: Program, q: Program, c: CellCoord, memo: Memo, moved: Memo)
    requires InStep(edit, Pair(p, q, {}, {})) && InBounds(c) && MemoFollows(edit, memo, moved)
    ensures Follow(edit, Outcome(h, p, Label(c), memo), Outcome(h, q, Label(Shift(edit, c)), moved))
    ensures Outcome(h, p, Label(c), memo).value.Some? ==> Label(Shift(edit, c)) in q
  {
    hide Label, Shift, Evaluate, Rewrite, Follows, InStep, MemoFollows;
    var x := Pair(p, q, {}, {});
    CellFollows(edit, x, c, memo, moved);
    if Label(c) in p && p[Label(c)].Computed? {
      EvaluateFollows(h, edit, x, p[Label(c)].e, memo, moved);
    }
  }

  lemma WrittenFollows(edit: Edit, c: CellCoord, v: Option<CellValue>, values: Memo, others: Memo)
    requires Insertion(edit) && InBounds(c) && MemoFollows(edit, values, others)
    ensures MemoFollows(edit, Written(Label(c), v) + values, Written(Label(Shift(edit, c)), v) + others)
  {
    hide Label, Shift, InBand, Insertion;
    var a, b := Written(Label(c), v) + values, Written(Label(Shift(edit, c)), v) + others;
    forall d: CellCoord | InBounds(d)
      ensures Label(d) in a <==> Label(Shift(edit, d)) in b
      ensures Label(d) in a ==> b[Label(Shift(edit, d))] == a[Label(d)]
    {
      ShiftedLabels(edit, c, d);
    }
    forall d: CellCoord | InBounds(d) && InBand(edit, d) && Label(d) in b
      ensures b[Label(d)] == Null
    {
      ShiftedLabels(edit, d, c);
    }
  }

  lemma FirstKeyFollows(edit: Edit, keys: seq<string>, labels: seq<string>)
    requires Insertion(edit) && KeysFollow(edit, keys, labels) && keys != []
    ensures var c := CoordOf(keys[0]);
            && InBounds(c) && keys[0] == Label(c) && labels[0] == Label(Shift(edit, c))
            && Normalize(keys[0]) == keys[0] && Normalize(labels[0]) == labels[0]
    ensures KeysFollow(edit, keys[1..], labels[1..])
  {
    hide Label, Shift, Normalize, CoordOf, Insertion;
    var c := CoordOf(keys[0]);
    ShiftedLabels(edit, c, c);
    LabelIsNormal(c);
    LabelIsNormal(Shift(edit, c));
  }

  lemma OutcomesUnfold(h: Host, p: Program, keys: seq<string>, memo: Memo)
    requires keys != [] && Normalize(keys[0]) == keys[0]
    ensures var r := Outcome(h, p, keys[0], memo);
            Outcomes(h, p, keys, memo) == Written(keys[0], r.value) + Outcomes(h, p, keys[1..], r.memo)
  {
    hide Outcome, Normalize, Written;
  }

  lemma NothingYet(edit: Edit, p: Program, q: Program)
    requires Insertion(edit) && MovedProgram(edit, p, q) && AllFollow(edit, p)
    ensures InStep(edit, Pair(p, q, {}, {})) && MemoFollows(edit, map[], map[])
  {
    hide MovedProgram, AllFollow;
  }

  // What is written at the labels is what is written at the keys.
  lemma {:induction false} OutcomesFollow(h: Host, edit: Edit, p: Program, q: Program, keys: seq<string>, labels: seq<string>, memo: Memo, moved: Memo)
    requires InStep(edit, Pair(p, q, {}, {})) && KeysFollow(edit, keys, labels) && MemoFollows(edit, memo, moved)
    ensures MemoFollows(edit, Outcomes(h, p, keys, memo), Outcomes(h, q, labels, moved))
    decreases |keys|
  {
    hide MovedProgram, AllFollow, VisitFollows, Insertion;
    assert |keys| == |labels|;
    if keys == [] {
      NothingYet(edit, p, q);
    } else {
      assert Insertion(edit);
      hide *;
      var c := CoordOf(keys[0]);
      FirstKeyFollows(edit, keys, labels);
      OutcomeFollows(h, edit, p, q, c, memo, moved);
      var a, b := Outcome(h, p, keys[0], memo), Outcome(h, q, labels[0], moved);
      FollowIs(edit, a, b);
      OutcomesFollow(h, edit, p, q, keys[1..], labels[1..], a.memo, b.memo);
      WrittenFollows(edit, c, a.value, Outcomes(h, p, keys[1..], a.memo), Outcomes(h, q, labels[1..], b.memo));
      OutcomesUnfold(h, p, keys, memo);
      OutcomesUnfold(h, q, labels, moved);
    }
  }

  lemma FollowIs<T>(edit: Edit, a: Result<T>, b: Result<T>)
    requires Follow(edit, a, b)
    ensures a.value == b.value && MemoFollows(edit, a.memo, b.memo)
  {
  }

  lemma MovedKeysFollow(fmt: NumFormat, edit: Edit, cells: Cells, keys: seq<string>)
    requires Insertion(edit) && Regular(cells, keys)
    ensures KeysFollow(edit, keys, MovedKeys(edit, cells, keys))
  {
    hide ParseCoord, Label, CanonicalLabel, ShiftLabel, MovedKeys, MovedCells, InBand;
    RegularInserted(fmt, edit, cells, keys);
    forall i | 0 <= i < |keys|
      ensures InBounds(CoordOf(keys[i])) && keys[i] == Label(CoordOf(keys[i]))
      ensures MovedKeys(edit, cells, keys)[i] == Label(Shift(edit, CoordOf(keys[i])))
    {
      assert keys[i] in keys;
      var c := CanonicalShift(edit, keys[i]);
    }
  }

  lemma CellMoved(fmt: NumFormat, edit: Edit, cells: Cells, keys: seq<string>, c: CellCoord)
    requires Insertion(edit) && Regular(cells, keys) && InBounds(c) && Label(c) in cells
    ensures Label(Shift(edit, c)) in MovedCells(fmt, edit, cells, keys)
    ensures MovedCells(fmt, edit, cells, keys)[Label(Shift(edit, c))] == MovedCell(fmt, edit, cells[Label(c)])
  {
    hide ParseCoord, Label, CanonicalLabel, ShiftLabel, MovedKeys, MovedCells, MovedCell, InBand;
    RegularInserted(fmt, edit, cells, keys);
    MovedKeysFollow(fmt, edit, cells, keys);
    var i :| 0 <= i < |keys| && keys[i] == Label(c);
    LabelEqualIff(c, CoordOf(keys[i]));
  }

  // After an insertion and the recalculation that ends it, every cell has, at its new label, the
  // value a recalculation gives it at the old one: formulas in cycles, constants and cells that
  // are never evaluated included.
  lemma ValuesFollow(h: Host, fmt: NumFormat, edit: Edit, cells: Cells, keys: seq<string>, c: CellCoord)
    requires Insertion(edit) && Movable(fmt, edit, cells, keys) && InBounds(c) && Label(c) in cells
    ensures var after := Recalculated(h, fmt, MovedCells(fmt, edit, cells, keys), MovedKeys(edit, cells, keys));
            && Label(Shift(edit, c)) in after
            && after[Label(Shift(edit, c))].value == Recalculated(h, fmt, cells, keys)[Label(c)].value
  {
    hide Label, Shift, MovedCells, MovedKeys, Portable, Regular, Outcomes, ProgramOf, InStep, KeysFollow, Insertion;
    hide FormulaParser.ParseExpression;
    var p, q := ProgramOf(fmt, cells), ProgramOf(fmt, MovedCells(fmt, edit, cells, keys));
    SheetProgramMoves(fmt, edit, cells, keys);
    hide Movable;
    NothingYet(edit, p, q);
    hide MovedProgram, AllFollow;
    MovedKeysFollow(fmt, edit, cells, keys);
    CellMoved(fmt, edit, cells, keys, c);
    OutcomesFollow(h, edit, p, q, keys, MovedKeys(edit, cells, keys), map[], map[]);
  }
}
