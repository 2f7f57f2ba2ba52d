/** Question rotation for the assessments: a session draws from the
    question bank, puts questions not yet attempted first, shuffles each
    group with Fisher-Yates, and the attempt history is capped at 200
    entries. The stored history and the bank are parameters; `Math.random`
    is an oracle `pick`, whose i-th draw chooses the swap partner of
    position i. */
module QuestionEngine {
  import opened Common
  import opened Records

  /** One stored attempt. The timestamp is not modelled. */
  datatype Attempt = Attempt(questionId: string, score: real)

  const HistoryCap: nat := 200

  /** The ids of the stored history, as the `Set` built from it. */
  function RecentIds(history: seq<Attempt>): (r: set<string>)
    ensures forall a | a in history :: a.questionId in r
    ensures forall id | id in r :: exists a | a in history :: a.questionId == id
  {
    set a | a in history :: a.questionId
  }

  /** The pool: the whole bank for "All" (`None`), else the questions of
      one category, in bank order. */
  function Pool(bank: seq<Question>, category: Option<QuestionCategory>): (r: seq<Question>)
    ensures multiset(r) <= multiset(bank)
    ensures forall q | q in r :: q in bank
    ensures forall q | q in r :: category.Some? ==> q.category == category.value
    ensures forall q | q in bank && (category.None? || q.category == category.value) :: q in r
  {
    if bank == [] then []
    else
      var rest := Pool(bank[1..], category);
      assert bank == [bank[0]] + bank[1..];
      if category.None? || bank[0].category == category.value then [bank[0]] + rest else rest
  }

  /** `pool.filter(...)` on whether the id was attempted: `attempted`
      selects the attempted questions, `!attempted` the others. */
  function WithHistory(pool: seq<Question>, recent: set<string>, attempted: bool): (r: seq<Question>)
    ensures forall q | q in r :: q in pool && (q.id in recent <==> attempted)
    ensures forall q | q in pool && (q.id in recent <==> attempted) :: q in r
  {
    if pool == [] then []
    else
      var rest := WithHistory(pool[1..], recent, attempted);
      if (pool[0].id in recent) == attempted then [pool[0]] + rest else rest
  }

  /** The two filters split the pool: together they hold each question of
      the pool as often as the pool does. */
  lemma {:induction false} PartitionPool(pool: seq<Question>, recent: set<string>)
    ensures multiset(WithHistory(pool, recent, false)) + multiset(WithHistory(pool, recent, true))
         == multiset(pool)
    ensures |WithHistory(pool, recent, false)| + |WithHistory(pool, recent, true)| == |pool|
  {
    if pool != [] {
      PartitionPool(pool[1..], recent);
      assert pool == [pool[0]] + pool[1..];
    }
  }

  /** `shuffleArray`: Fisher-Yates from the last position down to 1,
      swapping position i with a position j in [0, i]. */
  method Shuffle<T>(a: array<T>, pick: nat -> nat)
    modifies a
    ensures multiset(a[..]) == multiset(old(a[..]))
  {
    var i := a.Length - 1;
    while i > 0
      invariant i < a.Length
      invariant multiset(a[..]) == multiset(old(a[..]))
    {
      var j := pick(i) % (i + 1);
      a[i], a[j] := a[j], a[i];
      i := i - 1;
    }
  }

  /** `[...list]` copied into an array and shuffled there. */
  method ShuffledCopy<T>(s: seq<T>, pick: nat -> nat) returns (r: seq<T>)
    ensures |r| == |s| && multiset(r) == multiset(s)
  {
    var copy := new T[|s|](i requires 0 <= i < |s| => s[i]);
    assert copy[..] == s;
    Shuffle(copy, pick);
    r := copy[..];
  }

  /** A prefix holds no more of anything than the whole sequence. */
  lemma PrefixMultiset<T>(s: seq<T>, k: nat)
    requires k <= |s|
    ensures multiset(s[..k]) <= multiset(s)
  {
    assert s == s[..k] + s[k..];
  }

  /** `generateSession`: `count` questions of the pool, the unattempted
      ones first. Attempted questions are used only when fewer than `count`
      questions are unattempted, and then every unattempted question is
      in the session. */
  method GenerateSession(bank: seq<Question>, category: Option<QuestionCategory>, count: nat,
                         history: seq<Attempt>, pickUnseen: nat -> nat, pickSeen: nat -> nat)
    returns (selection: seq<Question>)
    ensures |selection| == Min(count, |Pool(bank, category)|)
    ensures multiset(selection) <= multiset(Pool(bank, category))
    ensures forall q | q in selection ::
              q in bank && (category.Some? ==> q.category == category.value)
    ensures var unseen := WithHistory(Pool(bank, category), RecentIds(history), false);
            forall i | 0 <= i < |selection| ::
              (selection[i].id !in RecentIds(history) <==> i < Min(count, |unseen|))
    ensures var unseen := WithHistory(Pool(bank, category), RecentIds(history), false);
            count >= |unseen| ==> |unseen| <= |selection| && multiset(selection[..|unseen|]) == multiset(unseen)
  {
    var pool := Pool(bank, category);
    var recent := RecentIds(history);
    var unseen := WithHistory(pool, recent, false);
    var seen := WithHistory(pool, recent, true);
    PartitionPool(pool, recent);

    var u := ShuffledCopy(unseen, pickUnseen);
    var a := ShuffledCopy(seen, pickSeen);
    ShuffledGroups(u, unseen, seen, a, recent);

    selection := FillSelection(u, a, count);
    assert multiset(selection) <= multiset(pool);
    MultisetMembers(selection, pool);
    SessionOrder(u, a, count, selection, recent);
  }

  /** Steps 5 and 6 of `generateSession`: the unattempted questions, topped
      up from the attempted ones when there are fewer than `count`, cut to
      `count`. */
  method FillSelection(unattempted: seq<Question>, attempted: seq<Question>, count: nat)
    returns (selection: seq<Question>)
    ensures |selection| == Min(count, |unattempted| + |attempted|)
    ensures multiset(selection) <= multiset(unattempted) + multiset(attempted)
    ensures count < |unattempted| ==> selection == unattempted[..count]
    ensures count >= |unattempted| ==>
              selection == unattempted + attempted[..|selection| - |unattempted|]
  {
    selection := unattempted;
    if |selection| < count {
      var k := Min(count - |selection|, |attempted|);
      PrefixMultiset(attempted, k);
      selection := selection + attempted[..k];
    }
    if count < |selection| {
      PrefixMultiset(selection, count);
      selection := selection[..count];
    }
  }

  /** The unattempted group fills the front of the session. */
  lemma SessionOrder(u: seq<Question>, a: seq<Question>, count: nat, selection: seq<Question>,
                     recent: set<string>)
    requires forall q | q in u :: q.id !in recent
    requires forall q | q in a :: q.id in recent
    requires |selection| <= |u| + |a|
    requires count < |u| ==> selection == u[..count]
    requires count >= |u| ==> |u| <= |selection| && selection == u + a[..|selection| - |u|]
    ensures forall i | 0 <= i < |selection| :: (selection[i].id !in recent <==> i < Min(count, |u|))
    ensures count >= |u| ==> selection[..|u|] == u
  {
    forall i | 0 <= i < |selection|
      ensures selection[i].id !in recent <==> i < Min(count, |u|)
    {
      if count < |u| {
        assert selection[i] == u[i];
      } else if i < |u| {
        assert selection[i] == u[i];
      } else {
        assert selection[i] == a[i - |u|];
      }
    }
  }

  /** Members of a sub-multiset are members of the larger sequence. */
  lemma MultisetMembers<T>(t: seq<T>, s: seq<T>)
    requires multiset(t) <= multiset(s)
    ensures forall x | x in t :: x in s
  {
    forall x | x in t ensures x in s {
      assert x in multiset(t);
    }
  }

  /** After shuffling, each group still holds only its own kind of
      question. */
  lemma ShuffledGroups(u: seq<Question>, unseen: seq<Question>, seen: seq<Question>,
                       a: seq<Question>, recent: set<string>)
    requires multiset(u) == multiset(unseen) && multiset(a) == multiset(seen)
    requires forall q | q in unseen :: q.id !in recent
    requires forall q | q in seen :: q.id in recent
    ensures forall q | q in u :: q.id !in recent
    ensures forall q | q in a :: q.id in recent
  {
    forall q | q in u ensures q.id !in recent {
      assert q in multiset(unseen);
    }
    forall q | q in a ensures q.id in recent {
      assert q in multiset(seen);
    }
  }

  /** No two entries share an id. */
  predicate DistinctIds(s: seq<Question>)
  {
    forall i, j | 0 <= i < j < |s| :: s[i].id != s[j].id
  }

  /** In a sequence with distinct ids every question occurs at most once. */
  lemma AtMostOnce(s: seq<Question>, x: Question)
    requires DistinctIds(s)
    ensures multiset(s)[x] <= 1
  {
    if x in s {
      var p :| 0 <= p < |s| && s[p] == x;
      assert s == s[..p] + [x] + s[p + 1..];
      assert x !in s[..p] by {
        forall i | 0 <= i < p ensures s[i] != x {
          assert s[i].id != s[p].id;
        }
      }
      assert x !in s[p + 1..] by {
        forall i | p + 1 <= i < |s| ensures s[i] != x {
          assert s[p].id != s[i].id;
        }
      }
    }
  }

  /** With distinct ids, a question is identified by its id. */
  lemma SameIdSame(s: seq<Question>, x: Question, y: Question)
    requires DistinctIds(s)
    requires x in s && y in s && x.id == y.id
    ensures x == y
  {
    var p :| 0 <= p < |s| && s[p] == x;
    var q :| 0 <= q < |s| && s[q] == y;
    assert s[p].id == s[q].id;
    assert p == q;
  }

  /** An element found at two positions occurs at least twice. */
  lemma CountTwo<T>(t: seq<T>, i: nat, j: nat)
    requires i < j < |t| && t[i] == t[j]
    ensures multiset(t)[t[i]] >= 2
  {
    assert t == t[..j] + t[j..];
    assert t[i] in t[..j] && t[j] in t[j..];
  }

  /** Drawing from a pool with distinct ids never repeats a question. */
  lemma SubsetKeepsDistinct(t: seq<Question>, s: seq<Question>)
    requires DistinctIds(s)
    requires multiset(t) <= multiset(s)
    ensures DistinctIds(t)
  {
    MultisetMembers(t, s);
    forall i, j | 0 <= i < j < |t| ensures t[i].id != t[j].id {
      if t[i].id == t[j].id {
        SameIdSame(s, t[i], t[j]);
        CountTwo(t, i, j);
        AtMostOnce(s, t[i]);
        assert false;
      }
    }
  }

  /** A session drawn from a pool with distinct ids has distinct ids. */
  lemma SessionDistinct(bank: seq<Question>, category: Option<QuestionCategory>, selection: seq<Question>)
    requires DistinctIds(Pool(bank, category))
    requires multiset(selection) <= multiset(Pool(bank, category))
    ensures DistinctIds(selection)
  {
    SubsetKeepsDistinct(selection, Pool(bank, category));
  }

  /** `generateMixedSession`: five Cognitive, then five Academic, then
      five Sports questions (fewer where a category runs short). */
  method GenerateMixedSession(bank: seq<Question>, history: seq<Attempt>, pick: nat -> nat -> nat)
    returns (session: seq<Question>)
    ensures var c := Min(5, |Pool(bank, Some(Cognitive))|);
            var a := Min(5, |Pool(bank, Some(Academic))|);
            && |session| == c + a + Min(5, |Pool(bank, Some(Sports))|)
            && forall i | 0 <= i < |session| ::
                 session[i].category == (if i < c then Cognitive else if i < c + a then Academic else Sports)
    ensures |session| <= 15
    ensures forall q | q in session :: q in bank
    ensures var c := Min(5, |Pool(bank, Some(Cognitive))|);
            var a := Min(5, |Pool(bank, Some(Academic))|);
            && multiset(session[..c]) <= multiset(Pool(bank, Some(Cognitive)))
            && multiset(session[c..c + a]) <= multiset(Pool(bank, Some(Academic)))
            && multiset(session[c + a..]) <= multiset(Pool(bank, Some(Sports)))
  {
    var cognitive := CategorySession(bank, Cognitive, history, pick(0), pick(1));
    var academic := CategorySession(bank, Academic, history, pick(2), pick(3));
    var sports := CategorySession(bank, Sports, history, pick(4), pick(5));
    session := cognitive + academic + sports;
    MixedBlocks(cognitive, academic, sports);
  }

  /** The three blocks of the mixed session can be read back from it, and
      each position holds a question of its block's category. */
  lemma MixedBlocks(cognitive: seq<Question>, academic: seq<Question>, sports: seq<Question>)
    requires forall q | q in cognitive :: q.category == Cognitive
    requires forall q | q in academic :: q.category == Academic
    requires forall q | q in sports :: q.category == Sports
    ensures var session := cognitive + academic + sports;
            && session[..|cognitive|] == cognitive
            && session[|cognitive|..|cognitive| + |academic|] == academic
            && session[|cognitive| + |academic|..] == sports
            && forall i | 0 <= i < |session| ::
                 session[i].category ==
                   (if i < |cognitive| then Cognitive else if i < |cognitive| + |academic| then Academic else Sports)
  {
    var session := cognitive + academic + sports;
    forall i | 0 <= i < |session|
      ensures session[i].category ==
                (if i < |cognitive| then Cognitive else if i < |cognitive| + |academic| then Academic else Sports)
    {
      if i < |cognitive| {
        assert session[i] == cognitive[i];
      } else if i < |cognitive| + |academic| {
        assert session[i] == academic[i - |cognitive|];
      } else {
        assert session[i] == sports[i - |cognitive| - |academic|];
      }
    }
    assert session[..|cognitive|] == cognitive;
    assert session[|cognitive|..|cognitive| + |academic|] == academic;
    assert session[|cognitive| + |academic|..] == sports;
  }

  /** One category's part of the mixed session: five questions of that
      category, fewer when the category has fewer. */
  method CategorySession(bank: seq<Question>, category: QuestionCategory, history: seq<Attempt>,
                         pickUnseen: nat -> nat, pickSeen: nat -> nat)
    returns (part: seq<Question>)
    ensures |part| == Min(5, |Pool(bank, Some(category))|)
    ensures forall q | q in part :: q.category == category && q in bank
    ensures multiset(part) <= multiset(Pool(bank, Some(category)))
  {
    part := GenerateSession(bank, Some(category), 5, history, pickUnseen, pickSeen);
  }

  /** The history after one attempt: the entry appended, and the oldest
      entry dropped when that makes more than 200. */
  function Recorded(history: seq<Attempt>, entry: Attempt): seq<Attempt>
  {
    var pushed := history + [entry];
    if |pushed| > HistoryCap then pushed[1..] else pushed
  }

  /** `saveAttempt`: the new entry is pushed, and when the history then
      exceeds 200 entries the oldest one is shifted off. */
  method SaveAttempt(history: seq<Attempt>, questionId: string, score: real)
    returns (saved: seq<Attempt>)
    ensures saved == Recorded(history, Attempt(questionId, score))
    ensures |saved| == if |history| >= HistoryCap then |history| else |history| + 1
    ensures saved[|saved| - 1] == Attempt(questionId, score)
    ensures |history| <= HistoryCap ==> |saved| <= HistoryCap
  {
    saved := history;
    saved := saved + [Attempt(questionId, score)];
    if |saved| > HistoryCap {
      saved := saved[1..];
    }
  }
}
