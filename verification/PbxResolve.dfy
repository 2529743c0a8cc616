/** Following a chain of proxy objects. */
module PbxResolve {
  import opened Text
  import opened PbxGraph

  datatype Outcome = Found(key: string) | Missing | Cycle(id: string) | TooDeep

  // The outcome, and how many times an object was looked up.
  datatype Resolution = Resolution(outcome: Outcome, lookups: nat)

  // `resolveRefChainInternal`
  function ResolveFrom(doc: Doc, ref: Option<string>, maxDepth: int, visited: set<string>, depth: nat): Resolution
    decreases Ids(doc) - visited
  {
    if ref.None? then Resolution(Missing, 0)
    else if ref.value !in doc.objects then Resolution(Missing, 1)
    else
      var target := doc.objects[ref.value];
      if target.id in visited then Resolution(Cycle(target.id), 1)
      else if depth > maxDepth then Resolution(TooDeep, 1)
      else if target.proxy.Some? then
        assert target.id in Ids(doc) - visited;
        var r := ResolveFrom(doc, target.proxy, maxDepth, visited + {target.id}, depth + 1);
        Resolution(r.outcome, 1 + r.lookups)
      else Resolution(Found(ref.value), 1)
  }

  // `resolveRefChain`
  function ResolveRefChain(doc: Doc, ref: Option<string>, maxDepth: int): Resolution {
    ResolveFrom(doc, ref, maxDepth, {}, 0)
  }

  // ----- The chain itself -----

  // The key reached by following `n` proxies.
  function Hop(doc: Doc, ref: Option<string>, n: nat): Option<string> {
    if n == 0 then ref
    else
      match Hop(doc, ref, n - 1)
      case None => None
      case Some(k) => if k in doc.objects then doc.objects[k].proxy else None
  }

  // The first hop that is past the limit.
  function Beyond(maxDepth: int): nat { if maxDepth < 0 then 0 else maxDepth + 1 }

  predicate Lands(doc: Doc, ref: Option<string>, n: nat) {
    Hop(doc, ref, n).Some? && Hop(doc, ref, n).value in doc.objects
  }

  // The id of the object at hop `n`.
  function IdAt(doc: Doc, ref: Option<string>, n: nat): string
    requires Lands(doc, ref, n)
  {
    doc.objects[Hop(doc, ref, n).value].id
  }

  // The hops before `n` land on objects with different ids, each a proxy.
  ghost predicate Clear(doc: Doc, ref: Option<string>, n: nat) {
    && (forall i :: 0 <= i < n ==> Lands(doc, ref, i) && doc.objects[Hop(doc, ref, i).value].proxy.Some?)
    && (forall i, j :: 0 <= i < j < n ==> IdAt(doc, ref, i) != IdAt(doc, ref, j))
  }

  // An id that was passed is met again.
  ghost predicate Recurs(doc: Doc, ref: Option<string>, n: nat)
    requires Lands(doc, ref, n)
  {
    exists i :: 0 <= i < n && Lands(doc, ref, i) && IdAt(doc, ref, i) == IdAt(doc, ref, n)
  }

  // How a chain ends at hop `n`: with an object that is no proxy, nowhere, at an id it has
  // passed, or past the limit.
  ghost predicate EndsAt(doc: Doc, ref: Option<string>, maxDepth: int, n: nat, outcome: Outcome) {
    Clear(doc, ref, n) && n <= Beyond(maxDepth) &&
    match outcome
    case Found(key) =>
      && n < Beyond(maxDepth) && Hop(doc, ref, n) == Some(key)
      && key in doc.objects && doc.objects[key].proxy.None? && !Recurs(doc, ref, n)
    case Missing => !Lands(doc, ref, n)
    case Cycle(id) => Lands(doc, ref, n) && IdAt(doc, ref, n) == id && Recurs(doc, ref, n)
    case TooDeep => n == Beyond(maxDepth) && Lands(doc, ref, n) && !Recurs(doc, ref, n)
  }

  ghost predicate VisitedAre(doc: Doc, ref: Option<string>, n: nat, visited: set<string>) {
    && (forall i :: 0 <= i < n ==> Lands(doc, ref, i) && IdAt(doc, ref, i) in visited)
    && (forall id :: id in visited ==> exists i :: 0 <= i < n && Lands(doc, ref, i) && IdAt(doc, ref, i) == id)
  }

  lemma VisitedIff(doc: Doc, ref: Option<string>, n: nat, visited: set<string>)
    requires VisitedAre(doc, ref, n, visited) && Lands(doc, ref, n)
    ensures IdAt(doc, ref, n) in visited <==> Recurs(doc, ref, n)
  {
    hide Hop;
  }

  lemma VisitedGrows(doc: Doc, ref: Option<string>, n: nat, visited: set<string>)
    requires VisitedAre(doc, ref, n, visited) && Clear(doc, ref, n) && Lands(doc, ref, n) && !Recurs(doc, ref, n)
    requires doc.objects[Hop(doc, ref, n).value].proxy.Some?
    ensures VisitedAre(doc, ref, n + 1, visited + {IdAt(doc, ref, n)})
    ensures Clear(doc, ref, n + 1)
    ensures Hop(doc, ref, n + 1) == doc.objects[Hop(doc, ref, n).value].proxy
  {
    assert Hop(doc, ref, n + 1) == doc.objects[Hop(doc, ref, n).value].proxy;
    hide Hop;
  }

  lemma {:induction false} ResolveEnds(doc: Doc, ref: Option<string>, maxDepth: int, visited: set<string>, n: nat) returns (end: nat)
    requires VisitedAre(doc, ref, n, visited) && Clear(doc, ref, n) && n <= Beyond(maxDepth)
    ensures EndsAt(doc, ref, maxDepth, end, ResolveFrom(doc, Hop(doc, ref, n), maxDepth, visited, n).outcome)
    ensures end >= n
    ensures ResolveFrom(doc, Hop(doc, ref, n), maxDepth, visited, n).lookups == end - n + if Hop(doc, ref, end).Some? then 1 else 0
    decreases Beyond(maxDepth) - n
  {
    hide Hop, VisitedAre, Clear, Recurs;
    end := n;
    if Lands(doc, ref, n) {
      VisitedIff(doc, ref, n, visited);
      var target := doc.objects[Hop(doc, ref, n).value];
      if target.id !in visited && n <= maxDepth && target.proxy.Some? {
        assert target.id in Ids(doc) - visited;
        VisitedGrows(doc, ref, n, visited);
        end := ResolveEnds(doc, ref, maxDepth, visited + {target.id}, n + 1);
      }
    }
  }

  // A chain ends in one way only.
  lemma EndIsUnique(doc: Doc, ref: Option<string>, maxDepth: int, m: nat, n: nat, a: Outcome, b: Outcome)
    requires EndsAt(doc, ref, maxDepth, m, a) && EndsAt(doc, ref, maxDepth, n, b)
    ensures a == b
  {
    hide Hop;
    if m < n {
      EndsSooner(doc, ref, maxDepth, m, n, a);
    } else if n < m {
      EndsSooner(doc, ref, maxDepth, n, m, b);
    }
  }

  lemma EndsSooner(doc: Doc, ref: Option<string>, maxDepth: int, m: nat, n: nat, a: Outcome)
    requires EndsAt(doc, ref, maxDepth, m, a) && m < n <= Beyond(maxDepth)
    ensures !Clear(doc, ref, n)
  {
    hide Hop;
  }

  // On any document, the outcome is the one way the chain ends within the limit.
  lemma ResolveClassified(doc: Doc, ref: Option<string>, maxDepth: int, outcome: Outcome)
    ensures ResolveRefChain(doc, ref, maxDepth).outcome == outcome <==> exists n :: EndsAt(doc, ref, maxDepth, n, outcome)
  {
    hide EndsAt;
    var end := ResolveEnds(doc, ref, maxDepth, {}, 0);
    hide ResolveFrom;
    if n: nat :| EndsAt(doc, ref, maxDepth, n, outcome) {
      EndIsUnique(doc, ref, maxDepth, end, n, ResolveRefChain(doc, ref, maxDepth).outcome, outcome);
    }
  }

  // The object at hop `n` was passed before.
  ghost predicate ObjectRecurs(doc: Doc, ref: Option<string>, n: nat) {
    exists i :: 0 <= i < n && Hop(doc, ref, i) == Hop(doc, ref, n)
  }

  // The cycle error is raised at the one earlier hop with the id met again. The object itself has
  // recurred exactly when it is the object of that hop, as it is in every document that stores
  // each object under its own id.
  lemma CycleIsOfObjects(doc: Doc, ref: Option<string>, maxDepth: int, n: nat, id: string) returns (first: nat)
    requires EndsAt(doc, ref, maxDepth, n, Cycle(id))
    ensures first < n && Lands(doc, ref, first) && IdAt(doc, ref, first) == id
    ensures ObjectRecurs(doc, ref, n) <==> Hop(doc, ref, first) == Hop(doc, ref, n)
    ensures (forall k :: k in doc.objects ==> doc.objects[k].id == k) ==> ObjectRecurs(doc, ref, n)
  {
    hide Hop;
    first :| 0 <= first < n && Lands(doc, ref, first) && IdAt(doc, ref, first) == id;
    if i :| 0 <= i < n && Hop(doc, ref, i) == Hop(doc, ref, n) {
      assert IdAt(doc, ref, i) == id;
      assert i == first;
    }
  }

  // There is one lookup for each hop of the chain up to its end: at most two more than the limit, on any
  // document.
  lemma LookupsCounted(doc: Doc, ref: Option<string>, maxDepth: int) returns (end: nat)
    ensures var r := ResolveRefChain(doc, ref, maxDepth);
            && EndsAt(doc, ref, maxDepth, end, r.outcome)
            && r.lookups == end + (if Hop(doc, ref, end).Some? then 1 else 0)
            && r.lookups <= (if maxDepth < 0 then 0 else maxDepth + 1) + 1
  {
    end := ResolveEnds(doc, ref, maxDepth, {}, 0);
    hide EndsAt, Hop, ResolveFrom;
    EndIsNear(doc, ref, maxDepth, end);
  }

  lemma EndIsNear(doc: Doc, ref: Option<string>, maxDepth: int, end: nat)
    requires EndsAt(doc, ref, maxDepth, end, ResolveRefChain(doc, ref, maxDepth).outcome)
    ensures end <= if maxDepth < 0 then 0 else maxDepth + 1
  {
  }
}
