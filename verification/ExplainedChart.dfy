/**
 * The "AI Explain" affordance wrapped around a dashboard chart: a canned
 * explanation per chart title, shown in a collapsible panel after a fixed
 * delay. Each wrapped chart owns its own `loading`, `open` and
 * `explanation` state; the delay is the discrete event `TimerFires`.
 */
module ExplainedChart {

  const SalesByCategoryTitle := "Sales By Category"
  const SalesByCategoryText := "This pie chart shows accessories leading at 35% of total revenue."
  const MonthlySalesTitle := "Monthly Sales"
  const MonthlySalesText := "Monthly sales increased 21% this month compared to last month."

  /** `mockExplanations`, keyed by chart title. */
  const MockExplanations: map<string, string> :=
    map[SalesByCategoryTitle := SalesByCategoryText, MonthlySalesTitle := MonthlySalesText]

  /** The text before the title in the fallback, `Insight for "`. */
  const FallbackOpening := "Insight for \""
  /** The text after the title in the fallback, `".`. */
  const FallbackClosing := "\"."

  /** `mockExplanations[title] || `Insight for "${title}".``: the canned text
      of the two known charts, and for any other title a fallback that
      quotes the title. It is never empty. */
  function ExplanationFor(title: string): (text: string)
    ensures title == SalesByCategoryTitle ==> text == SalesByCategoryText
    ensures title == MonthlySalesTitle ==> text == MonthlySalesText
    ensures title !in MockExplanations ==> text == FallbackOpening + title + FallbackClosing
    ensures text != []
  {
    if title in MockExplanations && MockExplanations[title] != "" then MockExplanations[title]
    else FallbackOpening + title + FallbackClosing
  }

  /** The fallback contains the title verbatim, right after the opening
      quote. */
  lemma FallbackQuotesTitle(title: string)
    requires title !in MockExplanations
    ensures var text := ExplanationFor(title);
      && |text| == |FallbackOpening| + |title| + |FallbackClosing|
      && text[|FallbackOpening|..|FallbackOpening| + |title|] == title
  {
    var text := ExplanationFor(title);
    assert text == FallbackOpening + title + FallbackClosing;
    assert |FallbackOpening| == 13;
  }

  /** Charts outside the table get different explanations for different
      titles. */
  lemma FallbackDistinguishesTitles(title1: string, title2: string)
    requires title1 !in MockExplanations && title2 !in MockExplanations
    requires ExplanationFor(title1) == ExplanationFor(title2)
    ensures title1 == title2
  {
    FallbackQuotesTitle(title1);
    FallbackQuotesTitle(title2);
  }

  /** One wrapped chart's explain state. */
  class ExplainPanel {
    const title: string
    var loading: bool
    var open: bool
    var explanation: string
    /** Timeout callbacks scheduled and not yet run. */
    ghost var timers: nat

    /** `loading` means a timer is pending; the explanation is empty until
        the first timer fires and the title's explanation afterwards; an open
        panel always shows that explanation. */
    ghost predicate Valid()
      reads this
    {
      && (loading ==> timers > 0)
      && (explanation == "" || explanation == ExplanationFor(title))
      && (open ==> explanation == ExplanationFor(title))
    }

    /** What the disabled button adds: at most one timer is pending, exactly
        while `loading`. */
    ghost predicate Guarded()
      reads this
    {
      Valid() && timers <= 1 && (loading <==> timers == 1)
    }

    constructor (title: string)
      ensures Guarded() && this.title == title
      ensures !loading && !open && explanation == "" && timers == 0
    {
      this.title := title;
      loading, open, explanation := false, false, "";
      timers := 0;
    }

    /** `handleExplain`: start loading, collapse the panel and schedule the
        timer; the current explanation stays until the timer fires. */
    method HandleExplain()
      requires Valid()
      modifies this
      ensures Valid()
      ensures loading && !open && explanation == old(explanation)
      ensures timers == old(timers) + 1
    {
      loading := true;
      open := false;
      timers := timers + 1;
    }

    /** The "AI Explain" button, disabled while `loading`. */
    method ClickExplain()
      requires Guarded()
      modifies this
      ensures Guarded()
      ensures old(loading) ==> unchanged(this)
      ensures !old(loading) ==> loading && !open && explanation == old(explanation) && timers == 1
    {
      if !loading {
        HandleExplain();
      }
    }

    /** The timeout callback: show the title's explanation. It checks
        nothing, so it acts the same whichever request scheduled it. */
    method TimerFires()
      requires Valid() && timers > 0
      modifies this
      ensures Valid()
      ensures explanation == ExplanationFor(title) && open && !loading
      ensures timers == old(timers) - 1
      ensures old(Guarded()) ==> Guarded() && timers == 0
    {
      explanation := ExplanationFor(title);
      open := true;
      loading := false;
      timers := timers - 1;
    }
  }

  /** Explaining one chart leaves every other chart's state as it was. */
  method ExplainLeavesOthers(p: ExplainPanel, q: ExplainPanel)
    requires p != q && p.Guarded() && q.Guarded()
    modifies p
    ensures q.loading == old(q.loading) && q.open == old(q.open)
    ensures q.explanation == old(q.explanation) && q.timers == old(q.timers)
    ensures q.Guarded()
  {
    p.ClickExplain();
  }

  /** Two charts explained side by side keep their own state: re-explaining
      one collapses only that one, and each shows its own text. */
  method IndependentPanels() returns (monthlyOpen: bool, monthlyText: string, categoryOpen: bool, categoryText: string)
    ensures !monthlyOpen && monthlyText == MonthlySalesText
    ensures categoryOpen && categoryText == SalesByCategoryText
  {
    var monthly := new ExplainPanel(MonthlySalesTitle);
    var category := new ExplainPanel(SalesByCategoryTitle);
    monthly.ClickExplain();
    category.ClickExplain();
    monthly.TimerFires();
    category.TimerFires();
    monthly.ClickExplain();
    monthlyOpen, monthlyText := monthly.open, monthly.explanation;
    categoryOpen, categoryText := category.open, category.explanation;
  }
}
