/** The object graph of a PBX document: the depth-limited walk and the proxy resolver. */
module PbxGraph {
  import opened Text

  // An object as the graph sees it: the targets of its `{ $ref }` properties in property order,
  // and its own `$ref` if it is a proxy.
  datatype Obj = Obj(id: string, links: seq<string>, proxy: Option<string>)

  // `objects` holds the entries that are well-formed objects; `root` is the top reference.
  datatype Doc = Doc(root: Option<string>, objects: map<string, Obj>)

  function Ids(doc: Doc): set<string> { set k | k in doc.objects :: doc.objects[k].id }

  // ----- The walk -----

  datatype Event = Visited(key: string, depth: nat) | BrokenRef(target: string)

  datatype Frame = Frame(key: string, depth: nat)

  // What a walk reports and the ids it has seen; not `ok` when it raised the depth error.
  datatype Walk = Walk(events: seq<Event>, seen: set<string>, ok: bool)

  predicate FramesOk(doc: Doc, frames: seq<Frame>) {
    forall i :: 0 <= i < |frames| ==> frames[i].key in doc.objects
  }

  // The frames pushed for an object, and the references that lead nowhere.
  function Pushed(doc: Doc, links: seq<string>, depth: nat): (frames: seq<Frame>)
    ensures FramesOk(doc, frames)
    ensures forall i :: 0 <= i < |frames| ==> frames[i].depth == depth && frames[i].key in links
    ensures forall k :: k in links && k in doc.objects ==> Frame(k, depth) in frames
  {
    if links == [] then []
    else
      var before := Pushed(doc, links[..|links| - 1], depth);
      assert links == links[..|links| - 1] + [links[|links| - 1]];
      before + if links[|links| - 1] in doc.objects then [Frame(links[|links| - 1], depth)] else []
  }

  function Dangling(doc: Doc, links: seq<string>): (events: seq<Event>)
    ensures forall e :: e in events <==> e.BrokenRef? && e.target in links && e.target !in doc.objects
  {
    if links == [] then []
    else
      assert links == links[..|links| - 1] + [links[|links| - 1]];
      Dangling(doc, links[..|links| - 1]) +
      if links[|links| - 1] in doc.objects then [] else [BrokenRef(links[|links| - 1])]
  }

  // Recursive depth-first search, the reference for the explicit stack.
  function Search(doc: Doc, maxDepth: int, frame: Frame, seen: set<string>): (w: Walk)
    requires frame.key in doc.objects
    ensures seen <= w.seen
    decreases Ids(doc) - seen, 0
  {
    var obj := doc.objects[frame.key];
    if frame.depth > maxDepth then Walk([], seen, false)
    else if obj.id in seen then Walk([], seen, true)
    else
      assert obj.id in Ids(doc) - seen;
      var w := SearchAll(doc, maxDepth, Pushed(doc, obj.links, frame.depth + 1), seen + {obj.id});
      Walk([Visited(frame.key, frame.depth)] + Dangling(doc, obj.links) + w.events, w.seen, w.ok)
  }

  // The frames of a stack, from the top.
  function SearchAll(doc: Doc, maxDepth: int, stack: seq<Frame>, seen: set<string>): (w: Walk)
    requires FramesOk(doc, stack)
    ensures seen <= w.seen
    decreases Ids(doc) - seen, 1, |stack|
  {
    if stack == [] then Walk([], seen, true)
    else
      var first := Search(doc, maxDepth, stack[|stack| - 1], seen);
      if !first.ok then first
      else
        assert Ids(doc) - first.seen <= Ids(doc) - seen;
        var rest := SearchAll(doc, maxDepth, stack[..|stack| - 1], first.seen);
        Walk(first.events + rest.events, rest.seen, rest.ok)
  }

  function WalkOf(doc: Doc, maxDepth: int): Walk {
    match doc.root
    case None => Walk([], {}, true)
    case Some(root) =>
      if root in doc.objects then Search(doc, maxDepth, Frame(root, 0), {})
      else Walk([BrokenRef(root)], {}, true)
  }

  function Then(first: Walk, rest: Walk): Walk {
    if !first.ok then first else Walk(first.events + rest.events, rest.seen, rest.ok)
  }

  // A stack is searched from its top part to its bottom part.
  lemma {:induction false} SearchAppend(doc: Doc, maxDepth: int, bottom: seq<Frame>, top: seq<Frame>, seen: set<string>)
    requires FramesOk(doc, bottom) && FramesOk(doc, top)
    ensures var first := SearchAll(doc, maxDepth, top, seen);
            SearchAll(doc, maxDepth, bottom + top, seen) == Then(first, SearchAll(doc, maxDepth, bottom, first.seen))
    decreases |top|
  {
    hide Search;
    if top == [] {
      assert bottom + top == bottom;
    } else {
      var frame, more := top[|top| - 1], top[..|top| - 1];
      var first := Search(doc, maxDepth, frame, seen);
      assert (bottom + top)[..|bottom + top| - 1] == bottom + more;
      if first.ok {
        SearchAppend(doc, maxDepth, bottom, more, first.seen);
      }
    }
  }

  // `walkPBXObjects`: the loop over the explicit stack does what the recursion does.
  method WalkPBXObjects(doc: Doc, maxDepth: int) returns (events: seq<Event>, ok: bool)
    ensures events == WalkOf(doc, maxDepth).events && ok == WalkOf(doc, maxDepth).ok
  {
    if doc.root.None? {
      return [], true;
    }
    if doc.root.value !in doc.objects {
      return [BrokenRef(doc.root.value)], true;
    }
    OneFrame(doc, maxDepth, Frame(doc.root.value, 0), {});
    hide *;
    events, ok := WalkFrom(doc, maxDepth, doc.root.value);
  }

  method WalkFrom(doc: Doc, maxDepth: int, root: string) returns (events: seq<Event>, ok: bool)
    requires root in doc.objects
    ensures var w := SearchAll(doc, maxDepth, [Frame(root, 0)], {});
            events == w.events && ok == w.ok
  {
    hide Pushed, Dangling, Search, SearchAll, Then;
    var seen: set<string> := {};
    var stack := [Frame(root, 0)];
    events := [];
    ghost var whole := SearchAll(doc, maxDepth, stack, seen);
    NothingBefore(whole, seen);
    while stack != []
      invariant FramesOk(doc, stack)
      invariant SameWalk(Then(Walk(events, seen, true), SearchAll(doc, maxDepth, stack, seen)), whole)
      decreases Ids(doc) - seen, |stack|
    {
      var frame, below := stack[|stack| - 1], stack[..|stack| - 1];
      assert stack == below + [frame];
      var obj := doc.objects[frame.key];
      if frame.depth > maxDepth {
        StepTooDeep(doc, maxDepth, below, frame, seen, events);
        return events, false;
      }
      if obj.id in seen {
        StepSeen(doc, maxDepth, below, frame, seen);
        stack := below;
        continue;
      }
      assert obj.id in Ids(doc) - seen;
      StepVisit(doc, maxDepth, below, frame, seen, events);
      var pushed, dangling := PushLinks(doc, obj.links, frame.depth + 1);
      seen := seen + {obj.id};
      events := events + ([Visited(frame.key, frame.depth)] + dangling);
      stack := below + pushed;
    }
    NothingAfter(doc, maxDepth, events, seen);
    return events, true;
  }

  predicate SameWalk(a: Walk, b: Walk) { a.events == b.events && a.ok == b.ok }

  lemma NothingBefore(w: Walk, seen: set<string>)
    ensures SameWalk(Then(Walk([], seen, true), w), w)
  {
    assert [] + w.events == w.events;
  }

  lemma NothingAfter(doc: Doc, maxDepth: int, events: seq<Event>, seen: set<string>)
    ensures Then(Walk(events, seen, true), SearchAll(doc, maxDepth, [], seen)) == Walk(events, seen, true)
  {
    assert events + [] == events;
  }

  lemma StepTooDeep(doc: Doc, maxDepth: int, below: seq<Frame>, frame: Frame, seen: set<string>, events: seq<Event>)
    requires FramesOk(doc, below) && frame.key in doc.objects && frame.depth > maxDepth
    ensures var w := Then(Walk(events, seen, true), SearchAll(doc, maxDepth, below + [frame], seen));
            w.events == events && !w.ok
  {
    TopFirst(doc, maxDepth, below, frame, seen);
    assert events + [] == events;
  }

  // The inner loop over the property values.
  method PushLinks(doc: Doc, links: seq<string>, depth: nat) returns (frames: seq<Frame>, dangling: seq<Event>)
    ensures frames == Pushed(doc, links, depth) && dangling == Dangling(doc, links)
  {
    frames, dangling := [], [];
    NoLinks(doc, links, depth);
    hide Pushed, Dangling;
    for i := 0 to |links|
      invariant frames == Pushed(doc, links[..i], depth) && dangling == Dangling(doc, links[..i])
    {
      OneLink(doc, links, i, depth);
      if links[i] in doc.objects {
        frames := frames + [Frame(links[i], depth)];
      } else {
        dangling := dangling + [BrokenRef(links[i])];
      }
    }
    assert links[..|links|] == links;
  }

  lemma NoLinks(doc: Doc, links: seq<string>, depth: nat)
    ensures Pushed(doc, links[..0], depth) == [] && Dangling(doc, links[..0]) == []
  {
  }

  lemma OneLink(doc: Doc, links: seq<string>, i: nat, depth: nat)
    requires i < |links|
    ensures Pushed(doc, links[..i + 1], depth) ==
            if links[i] in doc.objects then Pushed(doc, links[..i], depth) + [Frame(links[i], depth)] else Pushed(doc, links[..i], depth)
    ensures Dangling(doc, links[..i + 1]) ==
            if links[i] in doc.objects then Dangling(doc, links[..i]) else Dangling(doc, links[..i]) + [BrokenRef(links[i])]
  {
    var upTo, before := links[..i + 1], links[..i];
    assert upTo[..|upTo| - 1] == before && upTo[|upTo| - 1] == links[i];
    assert Pushed(doc, before, depth) + [] == Pushed(doc, before, depth) && Dangling(doc, before) + [] == Dangling(doc, before);
  }

  lemma OneFrame(doc: Doc, maxDepth: int, frame: Frame, seen: set<string>)
    requires frame.key in doc.objects
    ensures var one, w := SearchAll(doc, maxDepth, [frame], seen), Search(doc, maxDepth, frame, seen);
            one.events == w.events && one.ok == w.ok
  {
    hide Search;
    var w := Search(doc, maxDepth, frame, seen);
    assert [frame][..0] == [];
    assert w.events + [] == w.events;
  }

  lemma StepSeen(doc: Doc, maxDepth: int, below: seq<Frame>, frame: Frame, seen: set<string>)
    requires FramesOk(doc, below) && frame.key in doc.objects
    requires frame.depth <= maxDepth && doc.objects[frame.key].id in seen
    ensures SearchAll(doc, maxDepth, below + [frame], seen) == SearchAll(doc, maxDepth, below, seen)
  {
    assert (below + [frame])[..|below|] == below;
    var w := SearchAll(doc, maxDepth, below, seen);
    assert [] + w.events == w.events;
  }

  lemma VisitUnfolds(doc: Doc, maxDepth: int, frame: Frame, seen: set<string>)
    requires frame.key in doc.objects && frame.depth <= maxDepth && doc.objects[frame.key].id !in seen
    ensures var obj := doc.objects[frame.key];
            var inner := SearchAll(doc, maxDepth, Pushed(doc, obj.links, frame.depth + 1), seen + {obj.id});
            Search(doc, maxDepth, frame, seen) ==
            Walk([Visited(frame.key, frame.depth)] + Dangling(doc, obj.links) + inner.events, inner.seen, inner.ok)
  {
    hide Pushed, Dangling, SearchAll;
  }

  lemma Regroup(events: seq<Event>, now: seq<Event>, inner: Walk, rest: Walk, before: set<string>, after: set<string>)
    ensures Then(Walk(events, before, true), Then(Walk(now + inner.events, inner.seen, inner.ok), rest)) ==
            Then(Walk(events + now, after, true), Then(inner, rest))
  {
    assert events + (now + inner.events) == (events + now) + inner.events;
    assert events + ((now + inner.events) + rest.events) == (events + now) + (inner.events + rest.events);
  }

  lemma TopFirst(doc: Doc, maxDepth: int, below: seq<Frame>, frame: Frame, seen: set<string>)
    requires FramesOk(doc, below) && frame.key in doc.objects
    ensures var first := Search(doc, maxDepth, frame, seen);
            SearchAll(doc, maxDepth, below + [frame], seen) == Then(first, SearchAll(doc, maxDepth, below, first.seen))
  {
    hide Search;
    assert (below + [frame])[..|below|] == below;
  }

  lemma StepVisit(doc: Doc, maxDepth: int, below: seq<Frame>, frame: Frame, seen: set<string>, events: seq<Event>)
    requires FramesOk(doc, below) && frame.key in doc.objects
    requires frame.depth <= maxDepth && doc.objects[frame.key].id !in seen
    ensures var obj := doc.objects[frame.key];
            var now := [Visited(frame.key, frame.depth)] + Dangling(doc, obj.links);
            var after := SearchAll(doc, maxDepth, below + Pushed(doc, obj.links, frame.depth + 1), seen + {obj.id});
            Then(Walk(events, seen, true), SearchAll(doc, maxDepth, below + [frame], seen)) ==
            Then(Walk(events + now, seen + {obj.id}, true), after)
  {
    hide Pushed, Dangling, Search, SearchAll, Then;
    var obj := doc.objects[frame.key];
    var pushed := Pushed(doc, obj.links, frame.depth + 1);
    var now := [Visited(frame.key, frame.depth)] + Dangling(doc, obj.links);
    VisitUnfolds(doc, maxDepth, frame, seen);
    SearchAppend(doc, maxDepth, below, pushed, seen + {obj.id});
    TopFirst(doc, maxDepth, below, frame, seen);
    var inner := SearchAll(doc, maxDepth, pushed, seen + {obj.id});
    Regroup(events, now, inner, SearchAll(doc, maxDepth, below, inner.seen), seen, seen + {obj.id});
  }
}
