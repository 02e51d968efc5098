/** The editing surface of a Code::Blocks editor (`cbStyledTextCtrl`, a
    Scintilla control), reduced to the four properties LoadConfig sets.  Each
    setter stores the value it is given; what the control does with it
    afterwards (repainting, Scintilla's own checks) is not part of this model.
    Every setter call is also recorded, in order, in a ghost log.
 */
module EditorControl {

  /** Scintilla's end-of-line modes `wxSCI_EOL_CRLF`, `wxSCI_EOL_CR`, `wxSCI_EOL_LF`. */
  datatype EolMode = CrLf | Cr | Lf

  /** The four properties of the control that LoadConfig can change. */
  datatype CtrlState = CtrlState(useTabs: bool, indent: int, tabWidth: int, eolMode: EolMode)

  /** One setter call: `SetUseTabs`, `SetIndent`, `SetTabWidth` or `SetEOLMode`. */
  datatype Mutation =
    | UseTabsSet(useTabs: bool)
    | IndentSet(indent: int)
    | TabWidthSet(tabWidth: int)
    | EolModeSet(eolMode: EolMode)

  /** The control's properties after one setter call. */
  function Perform(s: CtrlState, m: Mutation): CtrlState {
    match m
    case UseTabsSet(b) => s.(useTabs := b)
    case IndentSet(n) => s.(indent := n)
    case TabWidthSet(n) => s.(tabWidth := n)
    case EolModeSet(e) => s.(eolMode := e)
  }

  /** The control's properties after a sequence of setter calls, first call first. */
  function Replay(s: CtrlState, ms: seq<Mutation>): CtrlState {
    if ms == [] then s else Perform(Replay(s, ms[..|ms| - 1]), ms[|ms| - 1])
  }

  /** Running two sequences of calls one after the other is running their concatenation. */
  lemma {:induction false} ReplayAppend(s: CtrlState, a: seq<Mutation>, b: seq<Mutation>)
    ensures Replay(s, a + b) == Replay(Replay(s, a), b)
  {
    if b == [] {
      assert a + b == a;
    } else {
      assert (a + b)[..|a + b| - 1] == a + b[..|b| - 1];
      ReplayAppend(s, a, b[..|b| - 1]);
    }
  }

  /** Replaying zero, one or two calls. */
  lemma ReplayShort(s: CtrlState, ms: seq<Mutation>)
    ensures |ms| == 0 ==> Replay(s, ms) == s
    ensures |ms| == 1 ==> Replay(s, ms) == Perform(s, ms[0])
    ensures |ms| == 2 ==> Replay(s, ms) == Perform(Perform(s, ms[0]), ms[1])
  {
    if |ms| == 2 {
      assert ms[..1][..0] == [];
    }
  }

  class StyledTextCtrl {
    var useTabs: bool
    var indent: int
    var tabWidth: int
    var eolMode: EolMode
    /** Every setter call made on this control so far. */
    ghost var log: seq<Mutation>

    function State(): CtrlState
      reads this
    {
      CtrlState(useTabs, indent, tabWidth, eolMode)
    }

    constructor (s: CtrlState)
      ensures State() == s && log == []
    {
      useTabs, indent, tabWidth, eolMode := s.useTabs, s.indent, s.tabWidth, s.eolMode;
      log := [];
    }

    method SetUseTabs(b: bool)
      modifies this
      ensures useTabs == b && indent == old(indent) && tabWidth == old(tabWidth) && eolMode == old(eolMode)
      ensures State() == Perform(old(State()), UseTabsSet(b))
      ensures log == old(log) + [UseTabsSet(b)]
    {
      useTabs := b;
      log := log + [UseTabsSet(b)];
    }

    method SetIndent(n: int)
      modifies this
      ensures indent == n && useTabs == old(useTabs) && tabWidth == old(tabWidth) && eolMode == old(eolMode)
      ensures State() == Perform(old(State()), IndentSet(n))
      ensures log == old(log) + [IndentSet(n)]
    {
      indent := n;
      log := log + [IndentSet(n)];
    }

    method SetTabWidth(n: int)
      modifies this
      ensures tabWidth == n && useTabs == old(useTabs) && indent == old(indent) && eolMode == old(eolMode)
      ensures State() == Perform(old(State()), TabWidthSet(n))
      ensures log == old(log) + [TabWidthSet(n)]
    {
      tabWidth := n;
      log := log + [TabWidthSet(n)];
    }

    method SetEOLMode(e: EolMode)
      modifies this
      ensures eolMode == e && useTabs == old(useTabs) && indent == old(indent) && tabWidth == old(tabWidth)
      ensures State() == Perform(old(State()), EolModeSet(e))
      ensures log == old(log) + [EolModeSet(e)]
    {
      eolMode := e;
      log := log + [EolModeSet(e)];
    }
  }
}
