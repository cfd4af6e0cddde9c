/** The plugin commands `init`, `add`, `hide`, `show`, `clear` and `remove`
    acting on the scene's single optional log container, and the engine's
    once-per-frame update of that container. */
module Commands {

  import opened Wrappers
  import opened Params
  import LC = LogContainer
  import ScrollProofs

  datatype Command =
    | Init(x: int, y: int, width: int, height: int)
    | Add(text: string)
    | Hide
    | Show
    | ClearLog
    | Remove

  /** The console diagnostic a handler emits. Only a repeated `init` reports
      anything; the other handlers return silently without a container. */
  datatype Notice = Silent | AlreadyInitialized

  datatype Outcome = Outcome(log: Option<LC.Container>, notice: Notice)

  /** One command handler run against the scene's container reference. */
  function Step(cfg: Config, log: Option<LC.Container>, cmd: Command): (r: Outcome)
    ensures r.notice == AlreadyInitialized <==> (cmd.Init? && log.Some?)
    ensures r.log.None? <==> (cmd.Remove? || (log.None? && !cmd.Init?))
  {
    match log
    case None =>
      (match cmd
       case Init(x, y, width, height) => Outcome(Some(LC.New(x, y, width, height)), Silent)
       case _ => Outcome(None, Silent))
    case Some(c) =>
      (match cmd
       case Init(_, _, _, _) => Outcome(log, AlreadyInitialized)
       case Add(text) => Outcome(Some(LC.Append(cfg, c, text)), Silent)
       case Hide => Outcome(Some(c.(visible := false)), Silent)
       case Show => Outcome(Some(c.(visible := true)), Silent)
       case ClearLog => Outcome(Some(LC.Clear(c)), Silent)
       case Remove => Outcome(None, Silent))
  }

  /** One engine frame: the container, when there is one, scrolls whether
      or not it is visible. */
  function Frame(cfg: Config, log: Option<LC.Container>): (r: Option<LC.Container>)
    ensures r.Some? <==> log.Some?
    ensures log.Some? ==> r == Some(LC.Update(cfg, log.value))
  {
    match log
    case None => None
    case Some(c) => Some(LC.Update(cfg, c))
  }

  /** What the scene sees between two frames: a command or a frame tick. */
  datatype Event = Run(cmd: Command) | Tick

  /** The container reference after a sequence of events. */
  function Replay(cfg: Config, log: Option<LC.Container>, events: seq<Event>): Option<LC.Container>
    decreases |events|
  {
    if |events| == 0 then log
    else
      var next := match events[0]
        case Run(cmd) => Step(cfg, log, cmd).log
        case Tick => Frame(cfg, log);
      Replay(cfg, next, events[1..])
  }

  /** The scene's container, if any, satisfies the layout invariant. */
  predicate Healthy(cfg: Config, log: Option<LC.Container>) {
    log.Some? ==> LC.WellSpaced(cfg, log.value)
  }

  lemma StepPreservesHealthy(cfg: Config, log: Option<LC.Container>, cmd: Command)
    requires Healthy(cfg, log)
    ensures Healthy(cfg, Step(cfg, log, cmd).log)
  {
    if log.Some? && cmd.Add? {
      ScrollProofs.AppendPreservesLayout(cfg, log.value, cmd.text);
    }
  }

  lemma FramePreservesHealthy(cfg: Config, log: Option<LC.Container>)
    requires Healthy(cfg, log)
    ensures Healthy(cfg, Frame(cfg, log))
  {
    if log.Some? {
      ScrollProofs.UpdatePreservesLayout(cfg, log.value);
    }
  }

  /** The layout invariant survives any interleaving of commands and
      frames, from any scene whose container, if any, satisfies the layout
      invariant. */
  lemma {:induction false} ReplayPreservesHealthy(cfg: Config, log: Option<LC.Container>, events: seq<Event>)
    requires Healthy(cfg, log)
    ensures Healthy(cfg, Replay(cfg, log, events))
    decreases |events|
  {
    if |events| > 0 {
      var next := match events[0]
        case Run(cmd) => Step(cfg, log, cmd).log
        case Tick => Frame(cfg, log);
      match events[0] {
        case Run(cmd) => StepPreservesHealthy(cfg, log, cmd);
        case Tick => FramePreservesHealthy(cfg, log);
      }
      ReplayPreservesHealthy(cfg, next, events[1..]);
    }
  }

  /** A second `init` is rejected with a diagnostic and the existing
      container is kept as it is. */
  lemma InitRejectedWhenPresent(cfg: Config, c: LC.Container, x: int, y: int, width: int, height: int)
    ensures Step(cfg, Some(c), Init(x, y, width, height)) == Outcome(Some(c), AlreadyInitialized)
  {
  }

  /** Without a container every command but `init` does nothing. */
  lemma CommandsIgnoredWithoutContainer(cfg: Config, cmd: Command)
    requires !cmd.Init?
    ensures Step(cfg, None, cmd) == Outcome(None, Silent)
  {
  }

  /** After `remove`, a fresh `init` on a map scene succeeds with an empty
      container whose cursor is at the top, whatever the scene held before. */
  lemma RemoveThenInit(cfg: Config, log: Option<LC.Container>, x: int, y: int, width: int, height: int)
    ensures var r := Step(cfg, Step(cfg, log, Remove).log, Init(x, y, width, height));
            && r.notice == Silent
            && r.log.Some?
            && r.log.value.entries == []
            && r.log.value.cursor == 0
            && r.log.value.visible
            && r.log.value.x == x && r.log.value.y == y
            && r.log.value.width == width && r.log.value.height == height
  {
  }

  /** `hide` and `show` only set the visibility flag, and doing either twice
      is the same as doing it once. */
  lemma VisibilityIdempotent(cfg: Config, log: Option<LC.Container>, cmd: Command)
    requires cmd.Hide? || cmd.Show?
    ensures Step(cfg, Step(cfg, log, cmd).log, cmd) == Step(cfg, log, cmd)
    ensures log.Some? ==> Step(cfg, log, cmd).log == Some(log.value.(visible := cmd.Show?))
  {
  }

  /** Hiding is not a pause: a hidden container scrolls and evicts exactly
      as a shown one does. */
  lemma HiddenKeepsScrolling(cfg: Config, c: LC.Container)
    ensures Frame(cfg, Step(cfg, Some(c), Hide).log) == Some(LC.Update(cfg, c).(visible := false))
  {
  }

  /** `add` appends one line at the container's cursor and leaves the
      earlier lines, the viewport and the visibility alone. */
  lemma AddAppendsAtCursor(cfg: Config, c: LC.Container, text: string)
    ensures var r := Step(cfg, Some(c), Add(text)).log;
            && r.Some?
            && r.value.entries == c.entries + [LC.Entry(c.cursor, text)]
            && r.value.cursor == c.cursor + cfg.lineHeight
            && r.value == c.(entries := c.entries + [LC.Entry(c.cursor, text)], cursor := c.cursor + cfg.lineHeight)
  {
    var a := LC.Append(cfg, c, text);
    assert a.entries == a.entries[..|c.entries|] + [LC.Last(a.entries)];
  }

  /** `clear` empties the container and resets its cursor, keeping the
      viewport and the visibility; the next frame neither scrolls nor
      evicts anything. */
  lemma ClearThenFrameIsIdle(cfg: Config, c: LC.Container)
    ensures var r := Step(cfg, Some(c), ClearLog).log;
            && r.Some?
            && r.value.entries == [] && r.value.cursor == 0
            && r.value == c.(entries := [], cursor := 0)
            && Frame(cfg, r) == r
  {
  }

}
