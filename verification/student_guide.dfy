/** The argument guide (src/components/student-guide.tsx): four steps the
    student walks through, one free-text response per step, a progress bar
    and the buttons that move between steps. */
module StudentGuide {

  /** The guide's steps, in order. */
  const Titles := ["Tesis principal", "Razón 1", "Evidencia", "Contraargumento"]

  const StepCount := |Titles|

  /** The step shown and the responses typed so far, keyed by step. */
  datatype Guide = Guide(current: nat, responses: map<nat, string>)

  const Start := Guide(0, map[])

  /** The step shown is one of the guide's steps. */
  predicate Valid(g: Guide) {
    g.current < StepCount
  }

  /** "Siguiente": one step forward, except at the last step. */
  function Next(g: Guide): (r: Guide)
    requires Valid(g)
    ensures Valid(r) && r.responses == g.responses
    ensures g.current < StepCount - 1 ==> r.current == g.current + 1
    ensures g.current == StepCount - 1 ==> r == g
  {
    if g.current < StepCount - 1 then g.(current := g.current + 1) else g
  }

  /** "Anterior": one step back, except at the first step. */
  function Previous(g: Guide): (r: Guide)
    requires Valid(g)
    ensures Valid(r) && r.responses == g.responses
    ensures g.current > 0 ==> r.current == g.current - 1
    ensures g.current == 0 ==> r == g
  {
    if g.current > 0 then g.(current := g.current - 1) else g
  }

  /** A step picked in the sidebar; the sidebar lists exactly the guide's
      steps. */
  function Select(g: Guide, index: nat): (r: Guide)
    requires index < StepCount
    ensures Valid(r) && r.current == index && r.responses == g.responses
  {
    g.(current := index)
  }

  /** Typing in the text box stores the text under the current step only. */
  function ResponseChange(g: Guide, value: string): (r: Guide)
    ensures r.current == g.current
    ensures r.current in r.responses && r.responses[r.current] == value
    ensures forall k :: k != g.current ==> (k in r.responses <==> k in g.responses)
    ensures forall k :: k != g.current && k in g.responses ==> r.responses[k] == g.responses[k]
  {
    g.(responses := g.responses[g.current := value])
  }

  /** The tick in the sidebar: the step has a non-empty response. */
  predicate Completed(g: Guide, step: nat) {
    step in g.responses && |g.responses[step]| > 0
  }

  /** The progress bar, in percent: `(current + 1) / 4 * 100`, which is
      always a whole number. */
  function Progress(g: Guide): (p: nat)
    requires Valid(g)
    ensures p * StepCount == (g.current + 1) * 100
    ensures p == 100 <==> g.current == StepCount - 1
    ensures 0 < p <= 100
  {
    (g.current + 1) * 100 / StepCount
  }

  /** What the main button does: finish and go to the dashboard on the last
      step, otherwise move on. */
  datatype Action = Siguiente | Finalizar(page: string)

  function MainButton(g: Guide): (a: Action)
    requires Valid(g)
    ensures a.Finalizar? <==> g.current == StepCount - 1
    ensures a.Finalizar? ==> a.page == "student-dashboard"
  {
    if g.current == StepCount - 1 then Finalizar("student-dashboard") else Siguiente
  }

  /** "Anterior" is disabled exactly on the first step, which is where it
      would do nothing. */
  lemma PreviousDisabledOnlyAtStart(g: Guide)
    requires Valid(g)
    ensures Previous(g) == g <==> g.current == 0
  {
  }

  /** Forward then back returns to the same step, and back then forward too. */
  lemma NextPreviousRoundTrip(g: Guide)
    requires Valid(g)
    ensures g.current < StepCount - 1 ==> Previous(Next(g)) == g
    ensures g.current > 0 ==> Next(Previous(g)) == g
  {
  }

  /** Moving forward strictly raises the progress bar, until the end. */
  lemma NextRaisesProgress(g: Guide)
    requires Valid(g) && g.current < StepCount - 1
    ensures Progress(Next(g)) > Progress(g)
  {
  }

  /** Pressing "Siguiente" `n` times from the start. */
  function Advance(g: Guide, n: nat): (r: Guide)
    requires Valid(g)
    ensures Valid(r) && r.responses == g.responses
    decreases n
  {
    if n == 0 then g else Advance(Next(g), n - 1)
  }

  /** Every step is reached from the start by pressing "Siguiente", and
      pressing it more often stays on the last step. */
  lemma {:induction false} AdvanceReaches(g: Guide, n: nat)
    requires Valid(g)
    ensures Advance(g, n).current == if g.current + n < StepCount then g.current + n else StepCount - 1
    decreases n
  {
    if n > 0 {
      AdvanceReaches(Next(g), n - 1);
    }
  }

  /** Typing marks the current step completed exactly when the text is
      non-empty, and moving on keeps the mark. */
  lemma TypingCompletesStep(g: Guide, value: string)
    requires Valid(g)
    ensures var r := ResponseChange(g, value);
      Completed(Next(r), g.current) <==> |value| > 0
  {
  }
}
