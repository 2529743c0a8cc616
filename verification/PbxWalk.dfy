/** What a completed walk has visited, and when a walk completes. */
module PbxWalk {
  import opened Text
  import opened PbxGraph

  // ----- Paths -----

  // Keys from the root along references; its length is the number of references followed.
  ghost predicate Path(doc: Doc, p: seq<string>) {
    && p != []
    && doc.root == Some(p[0])
    && (forall i :: 0 <= i < |p| ==> p[i] in doc.objects)
    && (forall i :: 0 <= i < |p| - 1 ==> p[i + 1] in doc.objects[p[i]].links)
  }

  ghost predicate PathTo(doc: Doc, p: seq<string>, key: string, depth: nat) {
    Path(doc, p) && |p| == depth + 1 && p[depth] == key
  }

  ghost predicate ReachedAt(doc: Doc, key: string, depth: nat) {
    exists p :: PathTo(doc, p, key, depth)
  }

  ghost predicate Reachable(doc: Doc, key: string) {
    exists depth: nat :: ReachedAt(doc, key, depth)
  }

  lemma PathExtends(doc: Doc, key: string, depth: nat, next: string)
    requires ReachedAt(doc, key, depth) && key in doc.objects && next in doc.objects && next in doc.objects[key].links
    ensures ReachedAt(doc, next, depth + 1)
  {
    var p :| PathTo(doc, p, key, depth);
    assert PathTo(doc, p + [next], next, depth + 1);
  }

  // A path longer than the limit.
  ghost predicate TooLong(doc: Doc, maxDepth: int) {
    exists key, depth: nat :: depth > maxDepth && ReachedAt(doc, key, depth)
  }

  // ----- What a search reports -----

  // A reference that leads nowhere, held by a reachable object.
  ghost predicate Dangles(doc: Doc, target: string) {
    && target !in doc.objects
    && exists key, depth: nat :: ReachedAt(doc, key, depth) && key in doc.objects && target in doc.objects[key].links
  }

  // Every visit is at the length of a path to the object, within the limit.
  ghost predicate Justified(doc: Doc, maxDepth: int, e: Event) {
    match e
    case Visited(key, depth) => key in doc.objects && depth <= maxDepth && ReachedAt(doc, key, depth)
    case BrokenRef(target) => Dangles(doc, target)
  }

  ghost predicate AtPaths(doc: Doc, maxDepth: int, events: seq<Event>) {
    forall e :: e in events ==> Justified(doc, maxDepth, e)
  }

  ghost predicate FramesReached(doc: Doc, stack: seq<Frame>) {
    forall i :: 0 <= i < |stack| ==> stack[i].key in doc.objects && ReachedAt(doc, stack[i].key, stack[i].depth)
  }

  lemma {:induction false} SearchPaths(doc: Doc, maxDepth: int, frame: Frame, seen: set<string>)
    requires frame.key in doc.objects && ReachedAt(doc, frame.key, frame.depth)
    ensures var w := Search(doc, maxDepth, frame, seen);
            AtPaths(doc, maxDepth, w.events) && (!w.ok ==> TooLong(doc, maxDepth))
    decreases Ids(doc) - seen, 0
  {
    hide ReachedAt, Dangling, Pushed, SearchAll, FramesReached, Justified;
    var obj := doc.objects[frame.key];
    if frame.depth <= maxDepth && obj.id !in seen {
      assert obj.id in Ids(doc) - seen;
      var pushed := Pushed(doc, obj.links, frame.depth + 1);
      PushedReached(doc, frame);
      StackPaths(doc, maxDepth, pushed, seen + {obj.id});
      hide TooLong;
      OwnEvents(doc, maxDepth, frame);
    }
  }

  lemma PushedReached(doc: Doc, frame: Frame)
    requires frame.key in doc.objects && ReachedAt(doc, frame.key, frame.depth)
    ensures FramesReached(doc, Pushed(doc, doc.objects[frame.key].links, frame.depth + 1))
  {
    hide ReachedAt;
    var pushed := Pushed(doc, doc.objects[frame.key].links, frame.depth + 1);
    hide Pushed;
    forall i | 0 <= i < |pushed|
      ensures ReachedAt(doc, pushed[i].key, pushed[i].depth)
    {
      PathExtends(doc, frame.key, frame.depth, pushed[i].key);
    }
  }

  lemma OwnEvents(doc: Doc, maxDepth: int, frame: Frame)
    requires frame.key in doc.objects && ReachedAt(doc, frame.key, frame.depth) && frame.depth <= maxDepth
    ensures Justified(doc, maxDepth, Visited(frame.key, frame.depth))
    ensures AtPaths(doc, maxDepth, Dangling(doc, doc.objects[frame.key].links))
  {
    hide ReachedAt;
  }

  lemma {:induction false} StackPaths(doc: Doc, maxDepth: int, stack: seq<Frame>, seen: set<string>)
    requires FramesReached(doc, stack)
    ensures var w := SearchAll(doc, maxDepth, stack, seen);
            AtPaths(doc, maxDepth, w.events) && (!w.ok ==> TooLong(doc, maxDepth))
    decreases Ids(doc) - seen, 1, |stack|
  {
    hide Search, ReachedAt, TooLong;
    if stack != [] {
      var first := Search(doc, maxDepth, stack[|stack| - 1], seen);
      SearchPaths(doc, maxDepth, stack[|stack| - 1], seen);
      if first.ok {
        assert Ids(doc) - first.seen <= Ids(doc) - seen;
        StackPaths(doc, maxDepth, stack[..|stack| - 1], first.seen);
      }
    }
  }

  // The ids of the visited objects, in order.
  function VisitedIds(doc: Doc, events: seq<Event>): seq<string> {
    if events == [] then []
    else
      VisitedIds(doc, events[..|events| - 1]) +
      match events[|events| - 1]
      case Visited(key, _) => if key in doc.objects then [doc.objects[key].id] else []
      case BrokenRef(_) => []
  }

  lemma {:induction false} VisitedIdsAppend(doc: Doc, a: seq<Event>, b: seq<Event>)
    ensures VisitedIds(doc, a + b) == VisitedIds(doc, a) + VisitedIds(doc, b)
  {
    if b == [] {
      assert a + b == a;
    } else {
      assert (a + b)[..|a + b| - 1] == a + b[..|b| - 1];
      VisitedIdsAppend(doc, a, b[..|b| - 1]);
    }
  }

  lemma {:induction false} NoVisits(doc: Doc, events: seq<Event>)
    requires forall e :: e in events ==> e.BrokenRef?
    ensures VisitedIds(doc, events) == []
  {
    if events != [] {
      assert events[|events| - 1] in events;
      NoVisits(doc, events[..|events| - 1]);
    }
  }

  ghost predicate Fresh(ids: seq<string>, seen: set<string>, after: set<string>) {
    && (forall i, j :: 0 <= i < j < |ids| ==> ids[i] != ids[j])
    && (forall i :: 0 <= i < |ids| ==> ids[i] !in seen)
    && after == seen + set id | id in ids
  }

  lemma FreshAppend(a: seq<string>, b: seq<string>, seen: set<string>, mid: set<string>, after: set<string>)
    requires Fresh(a, seen, mid) && Fresh(b, mid, after)
    ensures Fresh(a + b, seen, after)
  {
  }

  // A search visits each id once, and none it had seen.
  lemma {:induction false} SearchOnce(doc: Doc, maxDepth: int, frame: Frame, seen: set<string>)
    requires frame.key in doc.objects
    ensures var w := Search(doc, maxDepth, frame, seen); Fresh(VisitedIds(doc, w.events), seen, w.seen)
    decreases Ids(doc) - seen, 0
  {
    hide Pushed, Dangling, Fresh, SearchAll;
    var obj := doc.objects[frame.key];
    NothingVisited(doc, seen);
    if frame.depth <= maxDepth && obj.id !in seen {
      assert obj.id in Ids(doc) - seen;
      var pushed := Pushed(doc, obj.links, frame.depth + 1);
      var visit, dangling := [Visited(frame.key, frame.depth)], Dangling(doc, obj.links);
      StackOnce(doc, maxDepth, pushed, seen + {obj.id});
      var inner := SearchAll(doc, maxDepth, pushed, seen + {obj.id});
      OneVisit(doc, frame, seen);
      NoVisits(doc, dangling);
      hide VisitedIds;
      VisitedIdsAppend(doc, visit, dangling);
      VisitedIdsAppend(doc, visit + dangling, inner.events);
      assert [obj.id] + [] == [obj.id];
      FreshAppend([obj.id], VisitedIds(doc, inner.events), seen, seen + {obj.id}, inner.seen);
    }
  }

  lemma NothingVisited(doc: Doc, seen: set<string>)
    ensures Fresh(VisitedIds(doc, []), seen, seen)
  {
  }

  lemma OneVisit(doc: Doc, frame: Frame, seen: set<string>)
    requires frame.key in doc.objects && doc.objects[frame.key].id !in seen
    ensures var id := doc.objects[frame.key].id;
            VisitedIds(doc, [Visited(frame.key, frame.depth)]) == [id] && Fresh([id], seen, seen + {id})
  {
    assert [Visited(frame.key, frame.depth)][..0] == [];
  }

  lemma {:induction false} StackOnce(doc: Doc, maxDepth: int, stack: seq<Frame>, seen: set<string>)
    requires FramesOk(doc, stack)
    ensures var w := SearchAll(doc, maxDepth, stack, seen); Fresh(VisitedIds(doc, w.events), seen, w.seen)
    decreases Ids(doc) - seen, 1, |stack|
  {
    hide Search, Fresh, VisitedIds;
    NothingVisited(doc, seen);
    if stack != [] {
      var first := Search(doc, maxDepth, stack[|stack| - 1], seen);
      SearchOnce(doc, maxDepth, stack[|stack| - 1], seen);
      if first.ok {
        assert Ids(doc) - first.seen <= Ids(doc) - seen;
        StackOnce(doc, maxDepth, stack[..|stack| - 1], first.seen);
        var rest := SearchAll(doc, maxDepth, stack[..|stack| - 1], first.seen);
        VisitedIdsAppend(doc, first.events, rest.events);
        FreshAppend(VisitedIds(doc, first.events), VisitedIds(doc, rest.events), seen, first.seen, rest.seen);
      }
    }
  }

  // ----- Completeness -----

  // Everything an object refers to has been seen, and its broken references were reported.
  ghost predicate Explored(doc: Doc, key: string, events: seq<Event>, seen: set<string>)
    requires key in doc.objects
  {
    forall t :: t in doc.objects[key].links ==>
      if t in doc.objects then doc.objects[t].id in seen else BrokenRef(t) in events
  }

  // Every visited object is explored.
  ghost predicate AllExplored(doc: Doc, w: Walk) {
    forall e :: e in w.events && e.Visited? && e.key in doc.objects ==> Explored(doc, e.key, w.events, w.seen)
  }

  ghost predicate FramesSeen(doc: Doc, stack: seq<Frame>, seen: set<string>)
    requires FramesOk(doc, stack)
  {
    forall i :: 0 <= i < |stack| ==> doc.objects[stack[i].key].id in seen
  }

  lemma {:induction false} SearchExplores(doc: Doc, maxDepth: int, frame: Frame, seen: set<string>)
    requires frame.key in doc.objects && Search(doc, maxDepth, frame, seen).ok
    ensures var w := Search(doc, maxDepth, frame, seen);
            AllExplored(doc, w) && doc.objects[frame.key].id in w.seen
    decreases Ids(doc) - seen, 0
  {
    hide Pushed, Dangling, SearchAll, Explored, FramesSeen, AllExplored;
    var obj := doc.objects[frame.key];
    if frame.depth <= maxDepth && obj.id !in seen {
      assert obj.id in Ids(doc) - seen;
      var pushed := Pushed(doc, obj.links, frame.depth + 1);
      StackExplores(doc, maxDepth, pushed, seen + {obj.id});
      LinksExplored(doc, maxDepth, frame, seen);
    } else {
      NothingExplored(doc, seen);
    }
  }

  lemma NothingExplored(doc: Doc, seen: set<string>)
    ensures AllExplored(doc, Walk([], seen, true))
  {
  }

  lemma LinksExplored(doc: Doc, maxDepth: int, frame: Frame, seen: set<string>)
    requires frame.key in doc.objects && frame.depth <= maxDepth && doc.objects[frame.key].id !in seen
    requires var obj := doc.objects[frame.key];
             var pushed := Pushed(doc, obj.links, frame.depth + 1);
             var inner := SearchAll(doc, maxDepth, pushed, seen + {obj.id});
             inner.ok && AllExplored(doc, inner) && FramesSeen(doc, pushed, inner.seen)
    ensures AllExplored(doc, Search(doc, maxDepth, frame, seen))
  {
    hide SearchAll, Pushed, Dangling;
    var obj := doc.objects[frame.key];
    var pushed := Pushed(doc, obj.links, frame.depth + 1);
    var inner := SearchAll(doc, maxDepth, pushed, seen + {obj.id});
    var w := Search(doc, maxDepth, frame, seen);
    assert forall e :: e in w.events <==>
        e == Visited(frame.key, frame.depth) || e in Dangling(doc, obj.links) || e in inner.events;
    forall t | t in obj.links && t in doc.objects
      ensures doc.objects[t].id in w.seen
    {
      assert Frame(t, frame.depth + 1) in pushed;
    }
    assert Explored(doc, frame.key, w.events, w.seen);
  }

  lemma {:induction false} StackExplores(doc: Doc, maxDepth: int, stack: seq<Frame>, seen: set<string>)
    requires FramesOk(doc, stack) && SearchAll(doc, maxDepth, stack, seen).ok
    ensures var w := SearchAll(doc, maxDepth, stack, seen);
            AllExplored(doc, w) && FramesSeen(doc, stack, w.seen)
    decreases Ids(doc) - seen, 1, |stack|
  {
    hide Search;
    if stack != [] {
      var first := Search(doc, maxDepth, stack[|stack| - 1], seen);
      SearchExplores(doc, maxDepth, stack[|stack| - 1], seen);
      assert Ids(doc) - first.seen <= Ids(doc) - seen;
      StackExplores(doc, maxDepth, stack[..|stack| - 1], first.seen);
      var rest := SearchAll(doc, maxDepth, stack[..|stack| - 1], first.seen);
      hide SearchAll;
      ExploredJoin(doc, first, rest);
    }
  }

  lemma ExploredJoin(doc: Doc, first: Walk, rest: Walk)
    requires AllExplored(doc, first) && AllExplored(doc, rest) && first.seen <= rest.seen
    ensures AllExplored(doc, Walk(first.events + rest.events, rest.seen, rest.ok))
  {
    var events := first.events + rest.events;
    forall e | e in events && e.Visited? && e.key in doc.objects
      ensures Explored(doc, e.key, events, rest.seen)
    {
      if e in first.events {
        assert Explored(doc, e.key, first.events, first.seen);
      } else {
        assert Explored(doc, e.key, rest.events, rest.seen);
      }
    }
  }

  // ----- The walk as a whole -----

  ghost predicate WasVisited(w: Walk, key: string) {
    exists depth :: Visited(key, depth) in w.events
  }

  lemma RootReached(doc: Doc)
    requires doc.root.Some? && doc.root.value in doc.objects
    ensures ReachedAt(doc, doc.root.value, 0)
  {
    assert PathTo(doc, [doc.root.value], doc.root.value, 0);
  }

  // Every report is right: visits are of reachable objects at the length of a path within the
  // limit, and broken references are dangling references of such objects. The depth error means
  // that some path is longer than the limit.
  lemma WalkIsSound(doc: Doc, maxDepth: int)
    ensures var w := WalkOf(doc, maxDepth);
            && (forall e :: e in w.events ==> Justified(doc, maxDepth, e) || (e == BrokenRef(doc.root.value) && doc.root.value !in doc.objects))
            && (!w.ok ==> TooLong(doc, maxDepth))
  {
    hide Search, Justified;
    if doc.root.Some? && doc.root.value in doc.objects {
      RootReached(doc);
      SearchPaths(doc, maxDepth, Frame(doc.root.value, 0), {});
    }
  }

  // No object id is visited twice, whether or not the walk completes.
  lemma WalkVisitsOnce(doc: Doc, maxDepth: int)
    ensures var ids := VisitedIds(doc, WalkOf(doc, maxDepth).events);
            forall i, j :: 0 <= i < j < |ids| ==> ids[i] != ids[j]
  {
    hide Search;
    if doc.root.Some? {
      if doc.root.value in doc.objects {
        SearchOnce(doc, maxDepth, Frame(doc.root.value, 0), {});
      } else {
        NoVisits(doc, WalkOf(doc, maxDepth).events);
      }
    }
  }

  lemma {:induction false} SeenWasVisited(doc: Doc, events: seq<Event>, id: string) returns (e: Event)
    requires id in VisitedIds(doc, events)
    ensures e in events && e.Visited? && e.key in doc.objects && doc.objects[e.key].id == id
  {
    var last := events[|events| - 1];
    if last.Visited? && last.key in doc.objects && doc.objects[last.key].id == id {
      e := last;
    } else {
      e := SeenWasVisited(doc, events[..|events| - 1], id);
    }
  }

  // No two reachable objects share an id.
  ghost predicate ReachableIdsDiffer(doc: Doc) {
    forall j, k :: Reachable(doc, j) && Reachable(doc, k) && j in doc.objects && k in doc.objects ==>
      doc.objects[j].id == doc.objects[k].id ==> j == k
  }

  ghost predicate AllVisited(doc: Doc, w: Walk) {
    forall key :: Reachable(doc, key) ==> WasVisited(w, key)
  }

  lemma VisitedIsReachable(doc: Doc, maxDepth: int, e: Event)
    requires e in WalkOf(doc, maxDepth).events && e.Visited?
    ensures e.key in doc.objects && Reachable(doc, e.key)
  {
    hide WalkOf, ReachedAt;
    WalkIsSound(doc, maxDepth);
    assert Justified(doc, maxDepth, e);
  }

  lemma SeenKey(doc: Doc, maxDepth: int, key: string)
    requires ReachableIdsDiffer(doc) && Reachable(doc, key) && key in doc.objects
    requires doc.root.Some? && doc.root.value in doc.objects
    requires doc.objects[key].id in WalkOf(doc, maxDepth).seen
    ensures WasVisited(WalkOf(doc, maxDepth), key)
  {
    hide Search, VisitedIds, Reachable;
    SearchOnce(doc, maxDepth, Frame(doc.root.value, 0), {});
    var e := SeenWasVisited(doc, WalkOf(doc, maxDepth).events, doc.objects[key].id);
    hide WalkOf;
    VisitedIsReachable(doc, maxDepth, e);
    assert e == Visited(key, e.depth);
  }

  lemma AlongPath(doc: Doc, p: seq<string>, n: nat)
    requires Path(doc, p) && n < |p|
    ensures Reachable(doc, p[n])
  {
    assert PathTo(doc, p[..n + 1], p[n], n);
    assert ReachedAt(doc, p[n], n);
  }

  lemma {:induction false} PathVisited(doc: Doc, maxDepth: int, p: seq<string>, n: nat)
    requires ReachableIdsDiffer(doc) && Path(doc, p) && n < |p| && WalkOf(doc, maxDepth).ok
    ensures WasVisited(WalkOf(doc, maxDepth), p[n])
  {
    AlongPath(doc, p, n);
    hide Search, ReachableIdsDiffer, Reachable;
    SearchExplores(doc, maxDepth, Frame(doc.root.value, 0), {});
    var w := WalkOf(doc, maxDepth);
    if n > 0 {
      PathVisited(doc, maxDepth, p, n - 1);
      hide WalkOf;
      var depth :| Visited(p[n - 1], depth) in w.events;
      assert Explored(doc, Visited(p[n - 1], depth).key, w.events, w.seen);
      assert p[n - 1 + 1] in doc.objects[p[n - 1]].links;
    }
    SeenKey(doc, maxDepth, p[n]);
  }

  lemma {:induction false} VisitHasId(doc: Doc, events: seq<Event>, e: Event)
    requires e in events && e.Visited? && e.key in doc.objects
    ensures doc.objects[e.key].id in VisitedIds(doc, events)
  {
    if e != events[|events| - 1] {
      VisitHasId(doc, events[..|events| - 1], e);
    }
  }

  // Visits at two places of the events have their ids at two places.
  lemma TwoVisits(doc: Doc, events: seq<Event>, i: nat, j: nat) returns (a: nat, b: nat)
    requires i < j < |events| && events[i].Visited? && events[j].Visited?
    requires events[i].key in doc.objects && events[j].key in doc.objects
    requires doc.objects[events[i].key].id == doc.objects[events[j].key].id
    ensures a < b < |VisitedIds(doc, events)| && VisitedIds(doc, events)[a] == VisitedIds(doc, events)[b]
  {
    hide VisitedIds;
    var before, after := events[..j], events[j..];
    VisitHasId(doc, before, before[i]);
    VisitHasId(doc, after, after[0]);
    VisitedIdsAppend(doc, before, after);
    assert before + after == events;
    var id, left, right := doc.objects[events[i].key].id, VisitedIds(doc, before), VisitedIds(doc, after);
    a :| 0 <= a < |left| && left[a] == id;
    var c :| 0 <= c < |right| && right[c] == id;
    b := |left| + c;
    assert VisitedIds(doc, events) == left + right;
  }

  // Two visited objects have two ids.
  lemma VisitedIdsDiffer(doc: Doc, maxDepth: int, j: string, k: string)
    requires WasVisited(WalkOf(doc, maxDepth), j) && WasVisited(WalkOf(doc, maxDepth), k)
    requires j in doc.objects && k in doc.objects && doc.objects[j].id == doc.objects[k].id
    ensures j == k
  {
    WalkVisitsOnce(doc, maxDepth);
    hide WalkOf, VisitedIds;
    var events := WalkOf(doc, maxDepth).events;
    var d, e :| Visited(j, d) in events && Visited(k, e) in events;
    var x :| 0 <= x < |events| && events[x] == Visited(j, d);
    var y :| 0 <= y < |events| && events[y] == Visited(k, e);
    if x < y {
      var _, _ := TwoVisits(doc, events, x, y);
    } else if y < x {
      var _, _ := TwoVisits(doc, events, y, x);
    }
  }

  // A completed walk visits reachable objects only, and all of them exactly when no two of them
  // share an id.
  lemma WalkIsComplete(doc: Doc, maxDepth: int)
    requires WalkOf(doc, maxDepth).ok
    ensures forall key :: WasVisited(WalkOf(doc, maxDepth), key) ==> Reachable(doc, key)
    ensures AllVisited(doc, WalkOf(doc, maxDepth)) <==> ReachableIdsDiffer(doc)
  {
    hide WalkOf, Path, Reachable;
    var w := WalkOf(doc, maxDepth);
    forall key | WasVisited(w, key)
      ensures Reachable(doc, key)
    {
      var depth :| Visited(key, depth) in w.events;
      VisitedIsReachable(doc, maxDepth, Visited(key, depth));
    }
    if ReachableIdsDiffer(doc) {
      forall key | Reachable(doc, key)
        ensures WasVisited(w, key)
      {
        ReachableVisited(doc, maxDepth, key);
      }
    }
    if AllVisited(doc, w) {
      forall j, k | Reachable(doc, j) && Reachable(doc, k) && j in doc.objects && k in doc.objects &&
                    doc.objects[j].id == doc.objects[k].id
        ensures j == k
      {
        VisitedIdsDiffer(doc, maxDepth, j, k);
      }
    }
  }

  lemma ReachableVisited(doc: Doc, maxDepth: int, key: string)
    requires ReachableIdsDiffer(doc) && Reachable(doc, key) && WalkOf(doc, maxDepth).ok
    ensures WasVisited(WalkOf(doc, maxDepth), key)
  {
    var depth: nat :| ReachedAt(doc, key, depth);
    var p :| PathTo(doc, p, key, depth);
    hide WalkOf, ReachableIdsDiffer, Reachable;
    PathVisited(doc, maxDepth, p, depth);
  }

  // A document all of whose paths are within the limit is walked to the end.
  lemma ShallowCompletes(doc: Doc, maxDepth: int)
    requires forall p :: Path(doc, p) ==> |p| - 1 <= maxDepth
    ensures WalkOf(doc, maxDepth).ok
  {
    hide WalkOf, Path;
    WalkIsSound(doc, maxDepth);
    forall key, depth: nat | ReachedAt(doc, key, depth)
      ensures depth <= maxDepth
    {
      var p :| PathTo(doc, p, key, depth);
      assert Path(doc, p);
    }
  }

  const SHARED := Doc(Some("a"), map["a" := Obj("x", ["b"], None), "b" := Obj("x", [], None)])

  lemma SharedIsSkipped()
    ensures Search(SHARED, 5, Frame("b", 1), {"x"}) == Walk([], {"x"}, true)
  {
    hide SearchAll, Pushed, Dangling;
  }

  lemma SharedStack()
    ensures SearchAll(SHARED, 5, [Frame("b", 1)], {"x"}) == Walk([], {"x"}, true)
  {
    SharedIsSkipped();
    hide Search;
    assert [Frame("b", 1)][..0] == [];
  }

  lemma SharedLinks()
    ensures Pushed(SHARED, ["b"], 1) == [Frame("b", 1)] && Dangling(SHARED, ["b"]) == []
  {
    assert ["b"][..0] == [];
  }

  lemma SharedWalk()
    ensures WalkOf(SHARED, 5) == Walk([Visited("a", 0)], {"x"}, true)
  {
    SharedLinks();
    SharedStack();
    hide Pushed, Dangling, SearchAll;
    assert {} + {"x"} == {"x"};
    VisitUnfolds(SHARED, 5, Frame("a", 0), {});
    hide Search;
  }

  // Two objects under one id: the second is reachable and is never visited.
  lemma SharedIdHidesAnObject()
    ensures WalkOf(SHARED, 5).ok && Reachable(SHARED, "b") && !WasVisited(WalkOf(SHARED, 5), "b")
  {
    assert PathTo(SHARED, ["a", "b"], "b", 1);
    assert ReachedAt(SHARED, "b", 1);
    hide WalkOf, ReachedAt;
    SharedWalk();
  }
}
