/**
  The decisions the main window makes, as pure functions of the model state:
  what the labels and buttons show after a refresh, when the add form is
  accepted, and which model operation each user action triggers.
*/
module ViewLogic {
  import opened CatStore

  /** A label foreground colour. */
  datatype Rgb = Rgb(red: int, green: int, blue: int)

  const AliveColour: Rgb := Rgb(255, 255, 255)
  const DeadColour: Rgb := Rgb(255, 170, 170)

  const AliveGlyph: string := "☻"
  const DeadGlyph: string := "☠"

  /**
    What the window shows: the number label, the name, colour and alive labels
    (all four drawn in `foreground`), and whether each button can be pressed.
  */
  datatype Display = Display(
    number: int,
    name: string,
    colour: string,
    glyph: string,
    foreground: Rgb,
    prevEnabled: bool,
    nextEnabled: bool,
    killEnabled: bool)

  /** The refresh of every label and button from the model state. */
  function Render(s: Store): (d: Display)
    requires Valid(s)
    ensures 1 <= d.number <= |s.cats| && d.number == s.current + 1
    ensures d.name == s.cats[s.current].name && d.colour == s.cats[s.current].colour
    ensures s.cats[s.current].alive ==> d.glyph == AliveGlyph && d.foreground == AliveColour
    ensures !s.cats[s.current].alive ==> d.glyph == DeadGlyph && d.foreground == DeadColour
    ensures d.prevEnabled <==> Prev(s) != s
    ensures d.nextEnabled <==> Next(s) != s
    ensures d.killEnabled <==> KillCurrent(s) != s
  {
    var cat := s.cats[s.current];
    var tint := if cat.alive then AliveColour else DeadColour;
    Display(
      s.current + 1,
      cat.name,
      cat.colour,
      if cat.alive then AliveGlyph else DeadGlyph,
      tint,
      s.current > 0,
      s.current < |s.cats| - 1,
      cat.alive)
  }

  /**
    The characters Kotlin treats as whitespace on the JVM: the space, line and
    paragraph separators of Unicode, and the ASCII controls TAB, LF, VT, FF, CR
    and FS, GS, RS, US.
  */
  predicate IsWhitespace(c: char): (b: bool)
    ensures c == ' ' || c == '\t' || c == '\n' || c == '\r' ==> b
    ensures ('0' <= c <= '9') || ('A' <= c <= 'Z') || ('a' <= c <= 'z') ==> !b
    ensures b ==> c <= '\U{3000}'
    ensures c == '\U{85}' || c == '\U{200B}' || c == '\U{FEFF}' ==> !b
  {
    ('\t' <= c <= '\r') || ('\U{1C}' <= c <= ' ') ||
    c == '\U{A0}' || c == '\U{1680}' || ('\U{2000}' <= c <= '\U{200A}') ||
    c == '\U{2028}' || c == '\U{2029}' || c == '\U{202F}' || c == '\U{205F}' || c == '\U{3000}'
  }

  /** A text is blank when it is empty or holds only whitespace. */
  predicate IsBlank(t: string): (b: bool)
    ensures t == "" ==> b
    ensures b && t != "" ==> IsWhitespace(t[0]) && IsWhitespace(t[|t| - 1])
  {
    forall i :: 0 <= i < |t| ==> IsWhitespace(t[i])
  }

  /** `t` without its leading whitespace. */
  function TrimStart(t: string): (r: string)
    ensures |r| <= |t| && r == t[|t| - |r|..]
    ensures forall i :: 0 <= i < |t| - |r| ==> IsWhitespace(t[i])
    ensures r == [] || !IsWhitespace(r[0])
  {
    if t != [] && IsWhitespace(t[0]) then TrimStart(t[1..]) else t
  }

  /** `t` without its trailing whitespace. */
  function TrimEnd(t: string): (r: string)
    ensures |r| <= |t| && r == t[..|r|]
    ensures forall i :: |r| <= i < |t| ==> IsWhitespace(t[i])
    ensures r == [] || !IsWhitespace(r[|r| - 1])
  {
    if t != [] && IsWhitespace(t[|t| - 1]) then TrimEnd(t[..|t| - 1]) else t
  }

  /** `t` with whitespace removed from both ends. */
  function Trim(t: string): string {
    TrimEnd(TrimStart(t))
  }

  /** Blank is the same as "empty once trimmed". */
  lemma BlankIffTrimsToEmpty(t: string)
    ensures IsBlank(t) <==> Trim(t) == ""
  {
  }

  /**
    The user actions the window handles. The add button and Enter in either
    text field are the same action.
  */
  datatype Event = NextButton | PrevButton | KillButton | AddAction

  /** The model state together with what the two text fields hold. */
  datatype Screen = Screen(store: Store, nameText: string, colourText: string)

  /** The add form is accepted when neither field is blank. */
  predicate Accepts(w: Screen): (b: bool)
    ensures b <==> Trim(w.nameText) != "" && Trim(w.colourText) != ""
    ensures w.nameText == "" || w.colourText == "" ==> !b
  {
    BlankIffTrimsToEmpty(w.nameText);
    BlankIffTrimsToEmpty(w.colourText);
    !IsBlank(w.nameText) && !IsBlank(w.colourText)
  }

  datatype Option<T> = None | Some(value: T)

  /** The model operation an action triggers, if any; a rejected add triggers none. */
  function Command(w: Screen, e: Event): (op: Option<Op>)
    ensures e == NextButton ==> op == Some(NextCat)
    ensures e == PrevButton ==> op == Some(PrevCat)
    ensures e == KillButton ==> op == Some(KillCat)
    ensures op.None? <==> e == AddAction && !Accepts(w)
    ensures e == AddAction && Accepts(w) ==> op == Some(NewCat(w.nameText, w.colourText))
  {
    match e
    case NextButton => Some(NextCat)
    case PrevButton => Some(PrevCat)
    case KillButton => Some(KillCat)
    case AddAction => if Accepts(w) then Some(NewCat(w.nameText, w.colourText)) else None
  }

  /** The effect of one user action on the model and the text fields. */
  function Dispatch(w: Screen, e: Event): (r: Screen)
    requires Valid(w.store)
    ensures Valid(r.store)
    ensures r.store == (match Command(w, e) case None => w.store case Some(op) => Apply(w.store, op))
    ensures e != AddAction ==> r.nameText == w.nameText && r.colourText == w.colourText
    ensures e == AddAction && !Accepts(w) ==> r == w
    ensures e == AddAction && Accepts(w) ==> r.nameText == "" && r.colourText == ""
  {
    match e
    case NextButton => w.(store := Next(w.store))
    case PrevButton => w.(store := Prev(w.store))
    case KillButton => w.(store := KillCurrent(w.store))
    case AddAction =>
      if !IsBlank(w.nameText) && !IsBlank(w.colourText) then
        Screen(Append(w.store, w.nameText, w.colourText), "", "")
      else
        w
  }

  /** Scenario: at the first cat, previous keeps the cursor at 0 and stays disabled. */
  lemma ScenarioPrevAtStart()
    ensures Prev(Seed()) == Seed()
    ensures !Render(Prev(Seed())).prevEnabled
  {
  }

  /** Scenario: four presses of next reach the last seeded cat. */
  lemma ScenarioNextToEnd()
    ensures Run(Seed(), Repeat(NextCat, 4)).current == 4
    ensures !Render(Run(Seed(), Repeat(NextCat, 4))).nextEnabled
    ensures Render(Run(Seed(), Repeat(NextCat, 4))).prevEnabled
  {
  }

  /** Scenario: adding a sixth cat makes it current. */
  lemma ScenarioAdd()
    ensures |Append(Seed(), "Whiskers", "Grey").cats| == 6
    ensures Append(Seed(), "Whiskers", "Grey").current == 5
    ensures Render(Append(Seed(), "Whiskers", "Grey")).name == "Whiskers"
  {
  }

  /** Scenario: killing the current cat disables kill and shows the dead glyph; killing again changes nothing. */
  lemma ScenarioKill()
    ensures !Render(KillCurrent(Seed())).killEnabled
    ensures Render(KillCurrent(Seed())).glyph == DeadGlyph
    ensures KillCurrent(KillCurrent(Seed())) == KillCurrent(Seed())
  {
  }

  /** Scenario: an add with a blank name changes nothing. */
  lemma ScenarioBlankAdd(colour: string)
    ensures Dispatch(Screen(Seed(), "  ", colour), AddAction) == Screen(Seed(), "  ", colour)
  {
  }
}
