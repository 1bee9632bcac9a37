/**
 The knowledge base: articles proposed from tickets and published by a curator, the services they are linked to, and
 the search for a similar article (internal/service/kb.go, internal/repo/kb.go).
 */
module Knowledge {
  import opened Common

  // ---------------------------------------------------------------- links

  /** (article, service) rows. A row may name a service that no longer exists; the join hides it. */
  type Links = set<(int, int)>

  function Visible(links: Links, live: set<int>, article: int): set<int>
  {
    set l | l in links && l.0 == article && l.1 in live :: l.1
  }

  function Rows(article: int, services: set<int>): Links
  {
    set s | s in services :: (article, s)
  }

  function Synced(links: Links, live: set<int>, article: int, want: set<int>): Links
  {
    (set l | l in links && !(l.0 == article && l.1 in live && l.1 !in want))
    + Rows(article, want)
  }

  /** What an attempt may leave behind when a statement fails midway. */
  predicate Between(links: Links, partial: Links, live: set<int>, article: int, want: set<int>)
  {
    && (forall l :: l in partial ==> l in links || (l.0 == article && l.1 in want))
    && (forall l :: l in links ==> l in partial || (l.0 == article && l.1 in live && l.1 !in want))
  }

  /**
   MAIN RESULT. Afterwards the article shows exactly the wanted services that exist, every wanted id has a row, only
   unwanted visible rows are gone, and other articles keep theirs.
   */
  lemma SyncShowsTheWanted(links: Links, live: set<int>, article: int, want: set<int>)
    ensures var after := Synced(links, live, article, want);
            && Visible(after, live, article) == want * live
            && (forall s :: s in want ==> (article, s) in after)
            && (forall l :: l in links && l !in after ==> l.0 == article && l.1 in Visible(links, live, article) - want)
            && (forall l :: l in after && l !in links ==> l.0 == article && l.1 in want)
            && forall other :: other != article ==> Visible(after, live, other) == Visible(links, live, other)
  {
    var after := Synced(links, live, article, want);
    forall s | s in want * live ensures s in Visible(after, live, article) {
      assert (article, s) in after;
    }
    forall other, s | other != article && s in Visible(links, live, other) ensures s in Visible(after, live, other) {
      assert (other, s) in after;
    }
    forall other, s | other != article && s in Visible(after, live, other) ensures s in Visible(links, live, other) {
      assert (other, s) in links;
    }
  }

  /** MAIN RESULT. A repeated attempt ends where an unbroken one would have, wherever the first one broke off. */
  lemma RetryHeals(links: Links, partial: Links, live: set<int>, article: int, want: set<int>)
    requires Between(links, partial, live, article, want)
    ensures Synced(partial, live, article, want) == Synced(links, live, article, want)
  {
    var once, again := Synced(links, live, article, want), Synced(partial, live, article, want);
    forall l ensures l in once <==> l in again {
      if l.0 == article && l.1 in want {
        var service := l.1;
        assert service in want;
        assert (article, service) in Rows(article, want);
        assert l == (article, service);
      } else {
        assert l in once <==> l in links && !(l.0 == article && l.1 in live);
        assert l in again <==> l in partial && !(l.0 == article && l.1 in live);
      }
    }
  }

  // ---------------------------------------------------------------- articles

  datatype Article = Article(
    content: map<string, string>, published: bool, approvedBy: Option<int>, publishedAt: Option<int>)

  datatype Store = Store(articles: map<int, Article>, links: Links, live: set<int>)

  datatype Op =
    | Propose(id: int, content: map<string, string>, service: Option<int>)
    | Update(id: int, content: map<string, string>, services: Option<seq<int>>)
    | Approve(actor: int, id: int, at: int)
    | Delete(id: int)
    | ServiceAdded(added: int)
    | ServiceGone(gone: int)

  function Wanted(ids: seq<int>): set<int> { set s | s in ids }

  /** An operation that the service refuses changes nothing. An id in use is never handed out again. */
  function Apply(s: Store, op: Op): Store
  {
    match op
    case Propose(id, content, service) =>
      if id in s.articles then s
      else s.(articles := s.articles[id := Article(content, false, None, None)],
              links := if service.Some? then s.links + {(id, service.value)} else s.links)
    case Update(id, content, services) =>
      if id !in s.articles then s
      else s.(articles := s.articles[id := s.articles[id].(content := content)],
              links := if services.Some? then Synced(s.links, s.live, id, Wanted(services.value)) else s.links)
    case Approve(actor, id, at) =>
      if id !in s.articles || s.articles[id].published then s
      else s.(articles := s.articles[id := s.articles[id].(published := true, approvedBy := Some(actor), publishedAt := Some(at))])
    case Delete(id) => s.(articles := s.articles - {id})
    case ServiceAdded(service) => s.(live := s.live + {service})
    case ServiceGone(service) => s.(live := s.live - {service})
  }

  function Run(s: Store, ops: seq<Op>): Store
  {
    if ops == [] then s else Apply(Run(s, ops[..|ops| - 1]), ops[|ops| - 1])
  }

  /** The first approval in `ops` since the article was last put in as a draft, read off the operations alone. */
  function Approval(ops: seq<Op>, id: int): Option<Op>
  {
    if ops == [] then None
    else
      var before := Approval(ops[..|ops| - 1], id);
      match ops[|ops| - 1]
      case Delete(d) => if d == id then None else before
      case Approve(_, a, _) => if a == id && before.None? && Drafted(ops[..|ops| - 1], id) then Some(ops[|ops| - 1]) else before
      case _ => before
  }

  /** The article was proposed and has not been deleted since. */
  predicate Drafted(ops: seq<Op>, id: int)
  {
    ops != [] &&
    match ops[|ops| - 1]
    case Propose(p, _, _) => p == id || Drafted(ops[..|ops| - 1], id)
    case Delete(d) => d != id && Drafted(ops[..|ops| - 1], id)
    case _ => Drafted(ops[..|ops| - 1], id)
  }

  const EMPTY := Store(map[], {}, {})

  /**
   MAIN RESULT. An article is published exactly when somebody approved it as a draft; it then shows that first
   approval's curator and time for good, whatever is edited, proposed or approved again.
   */
  lemma {:induction false} PublishedMeansApproved(ops: seq<Op>, id: int)
    ensures var s := Run(EMPTY, ops);
            && (id in s.articles <==> Drafted(ops, id))
            && (id !in s.articles ==> Approval(ops, id).None?)
            && (id in s.articles ==>
                  var a := s.articles[id];
                  var approval := Approval(ops, id);
                  && (a.published <==> approval.Some?)
                  && (approval.Some? ==> approval.value == Op.Approve(a.approvedBy.GetOr(0), id, a.publishedAt.GetOr(0)))
                  && (a.approvedBy.Some? <==> a.published) && (a.publishedAt.Some? <==> a.published))
  {
    if ops != [] {
      PublishedMeansApproved(ops[..|ops| - 1], id);
    }
  }

  /** A new draft is linked to the service it was proposed with, and to nothing else. */
  lemma ProposalLinks(s: Store, id: int, content: map<string, string>, service: Option<int>, article: int, other: int)
    requires id !in s.articles
    ensures var links := Apply(s, Propose(id, content, service)).links;
            (article, other) in links <==> (article, other) in s.links || (article == id && service == Some(other))
  {
  }

  /** The content last written to an article since it was put in, read off the operations alone. */
  function LastWritten(ops: seq<Op>, id: int): map<string, string>
  {
    if ops == [] then map[]
    else
      var before := LastWritten(ops[..|ops| - 1], id);
      match ops[|ops| - 1]
      case Propose(p, content, _) => if p == id && !Drafted(ops[..|ops| - 1], id) then content else before
      case Update(u, content, _) => if u == id && Drafted(ops[..|ops| - 1], id) then content else before
      case _ => before
  }

  /** An article shows what was last written to it. */
  lemma {:induction false} ContentIsLastWritten(ops: seq<Op>, id: int)
    ensures var s := Run(EMPTY, ops); id in s.articles ==> s.articles[id].content == LastWritten(ops, id)
  {
    if ops != [] {
      ContentIsLastWritten(ops[..|ops| - 1], id);
      PublishedMeansApproved(ops[..|ops| - 1], id);
    }
  }

  // ---------------------------------------------------------------- matching

  /** `jaccard` over token sets, as an exact ratio. */
  method Jaccard(a: set<string>, b: set<string>) returns (score: real)
    ensures score == Similarity(a, b)
  {
    if |a| == 0 || |b| == 0 {
      return 0.0;
    }
    var intersection := 0;
    var todo := a;
    while exists w :: w in todo
      invariant todo <= a && intersection == |(a - todo) * b|
      decreases todo
    {
      var w :| w in todo;
      var done := a - todo;
      todo := todo - {w};
      assert a - todo == done + {w};
      if w in b {
        assert (done + {w}) * b == done * b + {w};
        intersection := intersection + 1;
      } else {
        assert (done + {w}) * b == done * b;
      }
    }
    assert a - todo == a;
    var union := |a| + |b| - intersection;
    Sizes(a, b);
    score := intersection as real / union as real;
  }

  /** Shared tokens over all tokens. */
  function Similarity(a: set<string>, b: set<string>): real
  {
    if |a| == 0 || |b| == 0 then 0.0
    else
      Sizes(a, b);
      |a * b| as real / |a + b| as real
  }

  /** MAIN RESULT. A score is the share of all tokens that both sides have; with no tokens on one side it is zero. */
  lemma SimilarityIsShare(a: set<string>, b: set<string>, all: set<string>, both: set<string>)
    requires forall w :: w in all <==> w in a || w in b
    requires forall w :: w in both <==> w in a && w in b
    ensures |a| > 0 && |b| > 0 ==> |all| > 0 && Similarity(a, b) * |all| as real == |both| as real
    ensures |a| == 0 || |b| == 0 ==> Similarity(a, b) == 0.0
  {
    Sizes(a, b);
    assert all == a + b && both == a * b;
  }

  lemma Sizes(a: set<string>, b: set<string>)
    ensures |a + b| == |a| + |b| - |a * b| && |a + b| >= |a| >= |a * b|
  {
    assert a == (a * b) + (a - b);
    assert a + b == b + (a - b);
  }

  lemma RatioRange(p: nat, q: nat)
    ensures p <= q && q > 0 ==> (var r := p as real / q as real; 0.0 <= r <= 1.0 && (r == 1.0 <==> p == q) && (r > 0.0 <==> p > 0))
  {
  }

  /** A score lies in [0, 1]: one for equal nonempty sets only, zero for sets with no common token only. */
  lemma SimilarityRange(a: set<string>, b: set<string>)
    ensures 0.0 <= Similarity(a, b) <= 1.0
    ensures Similarity(a, b) == 1.0 <==> a == b && |a| > 0
    ensures Similarity(a, b) > 0.0 <==> exists w :: w in a && w in b
  {
    Sizes(a, b);
    Sizes(b, a);
    if |a| > 0 && |b| > 0 {
      RatioRange(|a * b|, |a + b|);
      SameUnion(a, b);
      if |a * b| > 0 {
        var w :| w in a * b;
        assert w in a && w in b;
      } else if w :| w in a && w in b {
        assert w in a * b;
      }
    }
  }

  lemma SameUnion(a: set<string>, b: set<string>)
    ensures |a * b| == |a + b| <==> a == b
  {
    if a == b {
      assert a * b == a && a + b == a;
    } else if |a * b| == |a + b| {
      SameSize(a * b, a + b);
    }
  }

  lemma SameSize<T>(a: set<T>, b: set<T>)
    ensures a <= b && |a| == |b| ==> a == b
  {
    if a <= b && |a| == |b| {
      assert b == a + (b - a);
    }
  }

  /** `MatchForSymptom` over the published articles' token sets: the first of the best, if any scores above zero. */
  method MatchForSymptom(query: set<string>, published: seq<set<string>>) returns (best: Option<nat>, score: real)
    ensures best.None? ==> score == 0.0 && forall i :: 0 <= i < |published| ==> Similarity(query, published[i]) == 0.0
    ensures best.Some? ==>
              && best.value < |published| && score == Similarity(query, published[best.value]) > 0.0
              && (forall i :: 0 <= i < |published| ==> Similarity(query, published[i]) <= score)
              && (forall i :: 0 <= i < best.value ==> Similarity(query, published[i]) < score)
  {
    best, score := None, 0.0;
    if |query| == 0 {
      return;
    }
    var i := 0;
    while i < |published|
      invariant 0 <= i <= |published|
      invariant best.None? ==> score == 0.0
      invariant best.Some? ==> best.value < i && score == Similarity(query, published[best.value]) > 0.0
      invariant forall j :: 0 <= j < i ==> Similarity(query, published[j]) <= score
      invariant best.Some? ==> forall j :: 0 <= j < best.value ==> Similarity(query, published[j]) < score
    {
      var candidate := Jaccard(query, published[i]);
      if candidate > score {
        best, score := Some(i), candidate;
      }
      i := i + 1;
    }
    forall j | 0 <= j < |published| ensures Similarity(query, published[j]) >= 0.0 {
      SimilarityRange(query, published[j]);
    }
  }

  // ---------------------------------------------------------------- the service

  class KBService {
    var articles: map<int, Article>
    var links: Links
    var live: set<int>

    ghost function State(): Store
      reads this
    {
      Store(articles, links, live)
    }

    /** A row is created unless it is there; `up` says whether the database answers. */
    method LinkService(article: int, service: int, up: bool) returns (ok: bool)
      modifies this`links
      ensures ok == up && links == if ok then old(links) + {(article, service)} else old(links)
    {
      if up {
        links := links + {(article, service)};
      }
      ok := up;
    }

    method UnlinkService(article: int, service: int, up: bool) returns (ok: bool)
      modifies this`links
      ensures ok == up && links == if ok then old(links) - {(article, service)} else old(links)
    {
      if up {
        links := links - {(article, service)};
      }
      ok := up;
    }

    method ServicesForArticle(article: int) returns (services: set<int>)
      ensures services == Visible(links, live, article)
    {
      services := set l | l in links && l.0 == article && l.1 in live :: l.1;
    }

    /** `up(s)` says whether the statement about service `s` succeeds; the first failure ends the attempt. */
    method SetServices(article: int, serviceIds: seq<int>, up: int -> bool) returns (ok: bool)
      modifies this`links
      ensures (forall s :: up(s)) ==> ok
      ensures ok ==> links == Synced(old(links), live, article, Wanted(serviceIds))
      ensures Between(old(links), links, live, article, Wanted(serviceIds))
    {
      var existing := ServicesForArticle(article);
      var want: set<int> := {};
      var i := 0;
      while i < |serviceIds|
        invariant 0 <= i <= |serviceIds| && want == Wanted(serviceIds[..i]) && links == old(links)
      {
        assert serviceIds[..i + 1] == serviceIds[..i] + [serviceIds[i]];
        want := want + {serviceIds[i]};
        i := i + 1;
      }
      assert serviceIds[..i] == serviceIds;
      ok := true;
      var have: set<int> := {};
      var todo := existing;
      while exists s :: s in todo
        invariant todo <= existing && have == existing - todo
        invariant links == set l | l in old(links) && !(l.0 == article && l.1 in have && l.1 !in want)
        decreases todo
      {
        var s :| s in todo;
        have := have + {s};
        todo := todo - {s};
        if s !in want {
          ok := UnlinkService(article, s, up(s));
          if !ok {
            return;
          }
        }
      }
      assert have == existing;
      ghost var unlinked := links;
      ghost var linked: set<int> := {};
      todo := want;
      while exists s :: s in todo
        invariant todo <= want && linked == want - todo && ok
        invariant links == unlinked + Rows(article, linked - have)
        decreases todo
      {
        var s :| s in todo;
        if s !in have {
          ok := LinkService(article, s, up(s));
          if !ok {
            return;
          }
        }
        linked := linked + {s};
        todo := todo - {s};
      }
      assert linked == want;
    }

    /** The draft is kept when its link cannot be written. */
    method ProposeFromTicket(id: int, content: map<string, string>, service: Option<int>, up: bool) returns (ok: bool)
      requires id !in articles
      modifies this`articles, this`links
      ensures ok <==> service.None? || up
      ensures State() == Apply(old(State()), Propose(id, content, if ok then service else None))
    {
      articles := articles[id := Article(content, false, None, None)];
      ok := true;
      if service.Some? {
        ok := LinkService(id, service.value, up);
      }
    }

    method ApproveDraft(actor: int, id: int, at: int) returns (ok: bool)
      modifies this`articles
      ensures ok <==> id in old(articles) && !old(articles)[id].published
      ensures State() == Apply(old(State()), Approve(actor, id, at))
    {
      if id !in articles {
        return false;
      }
      var a := articles[id];
      if a.published {
        return false;
      }
      a := a.(published := true, approvedBy := Some(actor), publishedAt := Some(at));
      articles := articles[id := a];
      ok := true;
    }

    method UpdateArticle(id: int, content: map<string, string>, services: Option<seq<int>>, up: int -> bool) returns (ok: bool)
      modifies this`articles, this`links
      ensures (forall s :: up(s)) ==> (ok <==> id in old(articles))
      ensures ok ==> State() == Apply(old(State()), Update(id, content, services))
    {
      if id !in articles {
        return false;
      }
      articles := articles[id := articles[id].(content := content)];
      ok := true;
      if services.Some? {
        ok := SetServices(id, services.value, up);
      }
    }
  }
}
