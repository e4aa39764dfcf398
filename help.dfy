/** The FAQ search of the help page: every category keeps the questions
    whose question or answer contains the query (ignoring case), categories
    left without questions disappear, and a "No results found" panel shows
    when a non-empty query leaves nothing. The FAQ texts are the page's fixed
    data; here they are a parameter. */
module Help {
  import opened Js
  import opened Seqs

  datatype Faq = Faq(question: string, answer: string)
  datatype Category = Category(category: string, questions: seq<Faq>)

  /** The per-question test. */
  predicate MatchesFaq(query: string, q: Faq) {
    Includes(ToLower(q.question), ToLower(query)) || Includes(ToLower(q.answer), ToLower(query))
  }

  /** `{...category, questions: category.questions.filter(...)}`. */
  function Narrow(query: string, c: Category): (n: Category)
    ensures n.category == c.category
    ensures IsSubsequence(n.questions, c.questions)
    ensures forall q :: q in n.questions <==> q in c.questions && MatchesFaq(query, q)
    ensures |n.questions| == 0 <==> forall j :: 0 <= j < |c.questions| ==> !MatchesFaq(query, c.questions[j])
  {
    var p := q => MatchesFaq(query, q);
    FilterIsSubsequence(c.questions, p);
    FilterMembers(c.questions, p);
    FilterEmpty(c.questions, p);
    c.(questions := Filter(c.questions, p))
  }
  /** Narrowing keeps each matching question as often as it occurs and drops
      every other one. */
  lemma NarrowKeepsCount(query: string, c: Category, q: Faq)
    ensures multiset(Narrow(query, c).questions)[q]
         == if MatchesFaq(query, q) then multiset(c.questions)[q] else 0
  {
    FilterCount(c.questions, x => MatchesFaq(query, x), q);
  }


  /** `filteredFAQs`: each category narrowed, in order, keeping only those
      narrowed categories that still hold a question. */
  function FilteredFaqs(faqs: seq<Category>, query: string): (r: seq<Category>)
    ensures |r| <= |faqs|
    ensures forall k :: 0 <= k < |r| ==> |r[k].questions| > 0
  {
    if faqs == [] then []
    else
      var c := Narrow(query, faqs[0]);
      (if |c.questions| > 0 then [c] else []) + FilteredFaqs(faqs[1..], query)
  }

  /** Some question of the category matches. */
  ghost predicate Survives(query: string, c: Category) {
    exists j :: 0 <= j < |c.questions| && MatchesFaq(query, c.questions[j])
  }

  predicate HasQuestions(c: Category) {
    |c.questions| > 0
  }

  lemma SurvivesIff(query: string, c: Category)
    ensures HasQuestions(Narrow(query, c)) <==> Survives(query, c)
  {
  }

  /** `filteredFAQs` is the map followed by the filter. */
  lemma {:induction false} FilteredFaqsIsMapFilter(faqs: seq<Category>, query: string)
    ensures FilteredFaqs(faqs, query) == Filter(NarrowAll(faqs, query), HasQuestions)
  {
    if faqs != [] {
      FilteredFaqsIsMapFilter(faqs[1..], query);
      var n := NarrowAll(faqs, query);
      assert n[1..] == NarrowAll(faqs[1..], query);
    }
  }

  /** The result is, in order, the narrowing of exactly those categories
      that keep a question: a category with a match is kept (narrowed, under
      its own name), one without is dropped. */
  lemma FilteredFaqsKeepsSurvivors(faqs: seq<Category>, query: string)
    ensures IsSubsequence(FilteredFaqs(faqs, query), NarrowAll(faqs, query))
    ensures forall c :: c in FilteredFaqs(faqs, query) <==>
      exists i :: 0 <= i < |faqs| && Survives(query, faqs[i]) && c == Narrow(query, faqs[i])
  {
    FilteredFaqsIsMapFilter(faqs, query);
    FilterIsSubsequence(NarrowAll(faqs, query), HasQuestions);
    forall c ensures c in FilteredFaqs(faqs, query) <==>
      exists i :: 0 <= i < |faqs| && Survives(query, faqs[i]) && c == Narrow(query, faqs[i])
    {
      SurvivorMember(faqs, query, NarrowAll(faqs, query), c);
    }
  }

  lemma SurvivorMember(faqs: seq<Category>, query: string, n: seq<Category>, c: Category)
    requires |n| == |faqs| && forall i :: 0 <= i < |faqs| ==> n[i] == Narrow(query, faqs[i])
    ensures c in Filter(n, HasQuestions) <==>
      exists i :: 0 <= i < |faqs| && Survives(query, faqs[i]) && c == Narrow(query, faqs[i])
  {
    FilterCount(n, HasQuestions, c);
    assert c in Filter(n, HasQuestions) <==> HasQuestions(c) && c in n;
    if HasQuestions(c) && c in n {
      var i :| 0 <= i < |n| && n[i] == c;
      SurvivesIff(query, faqs[i]);
    }
    if exists i :: 0 <= i < |faqs| && Survives(query, faqs[i]) && c == Narrow(query, faqs[i]) {
      var i :| 0 <= i < |faqs| && Survives(query, faqs[i]) && c == Narrow(query, faqs[i]);
      SurvivesIff(query, faqs[i]);
      assert n[i] == c;
    }
  }

  /** Every category narrowed, none dropped. */
  function NarrowAll(faqs: seq<Category>, query: string): (r: seq<Category>)
    ensures |r| == |faqs|
    ensures forall i :: 0 <= i < |faqs| ==> r[i] == Narrow(query, faqs[i])
  {
    if faqs == [] then [] else [Narrow(query, faqs[0])] + NarrowAll(faqs[1..], query)
  }

  /** With an empty query, categories that hold questions come back whole. */
  lemma {:induction false} EmptyQueryKeepsAll(faqs: seq<Category>)
    requires forall i :: 0 <= i < |faqs| ==> |faqs[i].questions| > 0
    ensures FilteredFaqs(faqs, "") == faqs
  {
    if faqs != [] {
      var c := faqs[0];
      forall j | 0 <= j < |c.questions| ensures MatchesFaq("", c.questions[j]) {
        IncludesEmpty(ToLower(c.questions[j].question));
      }
      FilterAll(c.questions, q => MatchesFaq("", q));
      assert Narrow("", c) == c;
      EmptyQueryKeepsAll(faqs[1..]);
    }
  }

  /** The "No results found" panel. */
  predicate ShowNoResults(faqs: seq<Category>, query: string) {
    query != "" && |FilteredFaqs(faqs, query)| == 0
  }

  /** The panel shows iff the query is non-empty and no question of any
      category matches it. */
  lemma {:induction false} NoResultsIff(faqs: seq<Category>, query: string)
    ensures ShowNoResults(faqs, query) <==>
      query != "" && forall i, j :: 0 <= i < |faqs| && 0 <= j < |faqs[i].questions| ==> !MatchesFaq(query, faqs[i].questions[j])
  {
    FilteredFaqsEmptyIff(faqs, query);
  }

  lemma {:induction false} FilteredFaqsEmptyIff(faqs: seq<Category>, query: string)
    ensures |FilteredFaqs(faqs, query)| == 0 <==>
      forall i, j :: 0 <= i < |faqs| && 0 <= j < |faqs[i].questions| ==> !MatchesFaq(query, faqs[i].questions[j])
  {
    if faqs != [] {
      FilteredFaqsEmptyIff(faqs[1..], query);
      forall i, j | 1 <= i < |faqs| && 0 <= j < |faqs[i].questions|
        ensures faqs[i].questions[j] == faqs[1..][i - 1].questions[j]
      {
      }
    }
  }
}
