/**
 * The support tutorials (src/app/support/components/TutorialSection.tsx).
 *
 * The list shows two tutorials of three steps each. Starting one selects it
 * and sets the active step to 0; the step view shows the active step's title
 * and content, a Back button disabled on the first step, and either Next or,
 * on the last step, Restart, which goes back to step 0. "Back to Tutorials"
 * clears the selection and leaves the step as it is.
 *
 * The handlers themselves add or subtract without a bound; what keeps the
 * step inside the tutorial is which buttons are on screen. A click on a
 * button that is not on screen (disabled or not rendered) does nothing.
 */
module TutorialSection {
  import opened Common

  datatype Step = Step(title: string, content: string)

  datatype Tutorial = Tutorial(id: string, title: string, description: string, steps: seq<Step>)

  const GettingStarted := Tutorial("getting-started", "Getting Started with STOREFRONT",
    "Learn the basics of navigating and using the STOREFRONT ERP system.",
    [ Step("Dashboard Overview", "Explore the main dashboard and understand key metrics and navigation."),
      Step("Basic Operations", "Learn how to perform common tasks like creating orders and managing inventory."),
      Step("Advanced Features", "Discover advanced features and customization options available to you.") ])

  const InventoryManagement := Tutorial("inventory-management", "Inventory Management",
    "Master the inventory management system.",
    [ Step("Stock Overview", "Learn how to view and understand your current stock levels."),
      Step("Managing Products", "Add, edit, and organize your product catalog effectively."),
      Step("Stock Operations", "Handle stock transfers, adjustments, and inventory counts.") ])

  function Tutorials(): seq<Tutorial> {
    [GettingStarted, InventoryManagement]
  }

  /** What the component shows: the selected tutorial, if any, and the active step. */
  datatype View = View(selected: Option<Tutorial>, activeStep: int)

  /** The buttons of the component. */
  datatype Click = Start(t: Tutorial) | Next | Back | Restart | BackToList

  const Initial := View(None, 0)

  /** The active step indexes a step of the selected tutorial. */
  predicate InBounds(v: View) {
    v.selected.Some? ==> 0 <= v.activeStep < |v.selected.value.steps|
  }

  /** Whether the button is on screen and enabled. */
  predicate Enabled(v: View, c: Click) {
    match c
    case Start(t) => v.selected == None && t in Tutorials()
    case Back => v.selected.Some? && v.activeStep != 0
    case Next => v.selected.Some? && v.activeStep != |v.selected.value.steps| - 1
    case Restart => v.selected.Some? && v.activeStep == |v.selected.value.steps| - 1
    case BackToList => v.selected.Some?
  }

  /** What the button's handler does. */
  function Handle(v: View, c: Click): View {
    match c
    case Start(t) => View(Some(t), 0)
    case Next => v.(activeStep := v.activeStep + 1)
    case Back => v.(activeStep := v.activeStep - 1)
    case Restart => v.(activeStep := 0)
    case BackToList => v.(selected := None)
  }

  /** A click: the handler runs when the button is there, and nothing happens otherwise. */
  function Press(v: View, c: Click): View {
    if Enabled(v, c) then Handle(v, c) else v
  }

  /** The view after a series of clicks. */
  function Run(v: View, clicks: seq<Click>): View
    decreases |clicks|
  {
    if clicks == [] then v else Run(Press(v, clicks[0]), clicks[1..])
  }

  /** The step on screen: `selectedTutorial.steps[activeStep]`. */
  function ShownStep(v: View): (s: Step)
    requires InBounds(v) && v.selected.Some?
    ensures s in v.selected.value.steps
  {
    v.selected.value.steps[v.activeStep]
  }

  /** The component's state. */
  class TutorialSectionState {
    var selected: Option<Tutorial>
    var activeStep: int

    ghost predicate Valid()
      reads this
    {
      InBounds(View(selected, activeStep))
    }

    constructor ()
      ensures Valid() && selected == None && activeStep == 0
    {
      selected, activeStep := None, 0;
    }

    /** `handleTutorialSelect` from a Start button of the list. */
    method HandleTutorialSelect(t: Tutorial)
      requires selected == None && t in Tutorials()
      modifies this
      ensures Valid() && selected == Some(t) && activeStep == 0
    {
      selected := Some(t);
      activeStep := 0;
    }

    /** `handleNext`, from the Next button, shown before the last step. */
    method HandleNext()
      requires Valid() && selected.Some? && activeStep != |selected.value.steps| - 1
      modifies this`activeStep
      ensures Valid() && activeStep == old(activeStep) + 1
    {
      activeStep := activeStep + 1;
    }

    /** `handleBack`, from the Back button, disabled on the first step. */
    method HandleBack()
      requires Valid() && selected.Some? && activeStep != 0
      modifies this`activeStep
      ensures Valid() && activeStep == old(activeStep) - 1
    {
      activeStep := activeStep - 1;
    }

    /** `handleReset`, from the Restart button, shown on the last step. */
    method HandleReset()
      requires Valid() && selected.Some? && activeStep == |selected.value.steps| - 1
      modifies this`activeStep
      ensures Valid() && activeStep == 0
    {
      activeStep := 0;
    }

    /** "Back to Tutorials". */
    method HandleBackToList()
      requires Valid() && selected.Some?
      modifies this`selected
      ensures Valid() && selected == None && activeStep == old(activeStep)
    {
      selected := None;
    }
  }

  // ---------------------------------------------------------------------------
  // Properties

  /** Every tutorial on the list has a step. */
  lemma TutorialsHaveSteps()
    ensures forall t :: t in Tutorials() ==> |t.steps| == 3
  {
  }

  /** One click keeps the active step inside the selected tutorial. */
  lemma PressKeepsInBounds(v: View, c: Click)
    requires InBounds(v)
    ensures InBounds(Press(v, c))
  {
    TutorialsHaveSteps();
  }

  /** From the initial view, whatever is clicked, the shown step is a step of the selected tutorial. */
  lemma {:induction false} RunKeepsInBounds(v: View, clicks: seq<Click>)
    requires InBounds(v)
    ensures InBounds(Run(v, clicks))
    decreases |clicks|
  {
    if clicks != [] {
      PressKeepsInBounds(v, clicks[0]);
      RunKeepsInBounds(Press(v, clicks[0]), clicks[1..]);
    }
  }

  /** Starting a tutorial always opens its first step, whatever step was left before. */
  lemma StartOpensFirstStep(v: View, t: Tutorial)
    requires v.selected == None && t in Tutorials()
    ensures Press(v, Start(t)) == View(Some(t), 0)
    ensures ShownStep(Press(v, Start(t))) == t.steps[0]
  {
  }

  /** Leaving for the list keeps the step, which the next start resets. */
  lemma BackToListThenStart(t: Tutorial, u: Tutorial, step: int)
    requires InBounds(View(Some(t), step)) && u in Tutorials()
    ensures Press(View(Some(t), step), BackToList) == View(None, step)
    ensures Press(Press(View(Some(t), step), BackToList), Start(u)) == View(Some(u), 0)
  {
  }

  /** Without the guard, Next on the last step would index past the tutorial's steps. */
  lemma NextNeedsItsGuard(t: Tutorial)
    requires |t.steps| > 0
    ensures !InBounds(Handle(View(Some(t), |t.steps| - 1), Next))
    ensures Press(View(Some(t), |t.steps| - 1), Next) == View(Some(t), |t.steps| - 1)
  {
  }
}
