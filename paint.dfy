/**
 * The finger-paint canvas: touch handlers that build the in-progress path
 * text, commit it with the store's color on release, and a clear action.
 */
module Paint {
  import opened Wrappers
  import opened PathSyntax
  import PaintStore

  /** The eight colors of the paint palette, black first. */
  const Palette: seq<string> :=
    ["#000000", "#FF0000", "#00FF00", "#0000FF", "#FFFF00", "#FF00FF", "#00FFFF", "#FFFFFF"]

  const BoundaryHeight := 530
  const BoundaryWidth := 400

  /** Touches with both coordinates below this are mis-touches near the origin. */
  const DeadZone := 10

  predicate InDeadZone(x: int, y: int) { x < DeadZone && y < DeadZone }

  /** The drawing surface, borders included. */
  predicate InBounds(x: int, y: int)
  {
    0 <= x <= BoundaryWidth && 0 <= y <= BoundaryHeight
  }

  /** A point the handlers take: on the surface and not in the dead-zone. */
  predicate Accepts(p: Point)
  {
    !InDeadZone(p.x, p.y) && InBounds(p.x, p.y)
  }

  predicate AllAccepted(cmds: seq<Command>)
  {
    forall i :: 0 <= i < |cmds| ==> Accepts(cmds[i].p)
  }

  /**
   * The path update a touch-move applies: a line-to is appended when the
   * previous path exists and starts with a move-to; otherwise the path is
   * restarted with a move-to at the touch point.
   */
  function ExtendPath(prev: string, x: int, y: int): string
  {
    if prev != "" && prev[0] == 'M' then prev + " L " + IntToString(x) + " " + IntToString(y)
    else "M " + IntToString(x) + " " + IntToString(y)
  }

  /**
   * Extending the text of a stroke appends one line-to command: the restart
   * branch of ExtendPath cannot be reached from a stroke.
   */
  lemma ExtendStroke(cmds: seq<Command>, x: int, y: int)
    requires IsStroke(cmds)
    ensures ExtendPath(Serialize(cmds), x, y) == Serialize(cmds + [LineTo(Point(x, y))])
  {
    SerializeShape(cmds);
    SerializeSnoc(cmds, LineTo(Point(x, y)));
    CommandTextWords(LineTo(Point(x, y)));
  }

  /** A committed stroke: its path text and the color it was committed with. */
  datatype Stroke = Stroke(path: string, color: string)

  /** The path text parses to a stroke all of whose points the handlers accept. */
  ghost predicate IsAcceptedStrokeText(s: string)
  {
    var r := ParsePath(s);
    r.Some? && IsStroke(r.value) && AllAccepted(r.value)
  }

  class Canvas {
    var currentPath: string
    var paths: seq<Stroke>
    var isDrawing: bool

    /** The commands behind currentPath, and behind each committed path. */
    ghost var commands: seq<Command>
    ghost var committed: seq<seq<Command>>

    ghost predicate Valid()
      reads this
    {
      && (isDrawing <==> commands != [])
      && (commands != [] ==> IsStroke(commands))
      && AllAccepted(commands)
      && currentPath == Serialize(commands)
      && |committed| == |paths|
      && forall i :: 0 <= i < |paths| ==>
           IsStroke(committed[i]) && AllAccepted(committed[i]) && paths[i].path == Serialize(committed[i])
    }

    constructor ()
      ensures Valid()
      ensures currentPath == "" && paths == [] && !isDrawing
    {
      currentPath := "";
      paths := [];
      isDrawing := false;
      commands := [];
      committed := [];
    }

    /** Touch-down: starts a path at an accepted point, otherwise does nothing. */
    method Grant(x: int, y: int)
      requires Valid()
      modifies this
      ensures Valid()
      ensures Accepts(Point(x, y)) ==>
        && currentPath == "M " + IntToString(x) + " " + IntToString(y)
        && commands == [MoveTo(Point(x, y))]
        && isDrawing
        && paths == old(paths)
      ensures !Accepts(Point(x, y)) ==> unchanged(this)
    {
      if InDeadZone(x, y) { return; }
      if InBounds(x, y) {
        currentPath := "M " + IntToString(x) + " " + IntToString(y);
        isDrawing := true;
        commands := [MoveTo(Point(x, y))];
        SerializeSingle(MoveTo(Point(x, y)));
      }
    }

    /**
     * Touch-move: while drawing, an accepted point appends one line-to to
     * the path; when not drawing, or for a rejected point, nothing changes.
     */
    method Move(x: int, y: int)
      requires Valid()
      modifies this
      ensures Valid()
      ensures old(isDrawing) && Accepts(Point(x, y)) ==>
        && currentPath == old(currentPath) + " L " + IntToString(x) + " " + IntToString(y)
        && commands == old(commands) + [LineTo(Point(x, y))]
        && isDrawing
        && paths == old(paths)
      ensures !(old(isDrawing) && Accepts(Point(x, y))) ==> unchanged(this)
    {
      if !isDrawing { return; }
      if InDeadZone(x, y) { return; }
      if InBounds(x, y) {
        ExtendStroke(commands, x, y);
        currentPath := ExtendPath(currentPath, x, y);
        commands := commands + [LineTo(Point(x, y))];
      }
    }

    /**
     * Touch-release: while drawing, commits the path with the color the
     * store holds now and ends the stroke; otherwise nothing changes.
     */
    method Release(store: PaintStore.Store)
      requires Valid()
      modifies this
      ensures Valid()
      ensures old(isDrawing) ==>
        && paths == old(paths) + [Stroke(old(currentPath), store.color)]
        && committed == old(committed) + [old(commands)]
        && currentPath == "" && !isDrawing
      ensures !old(isDrawing) ==> unchanged(this)
    {
      if currentPath != "" && isDrawing {
        paths := paths + [Stroke(currentPath, store.color)];
        committed := committed + [commands];
        currentPath := "";
        isDrawing := false;
        commands := [];
      }
    }

    /** The eraser button: drops every stroke and the path in progress. */
    method Clear()
      requires Valid()
      modifies this
      ensures Valid()
      ensures paths == [] && currentPath == "" && !isDrawing
    {
      paths := [];
      currentPath := "";
      isDrawing := false;
      commands := [];
      committed := [];
    }
  }

  /**
   * The canvas invariant in terms of its fields: it is drawing exactly when
   * the path is non-empty and starts with a move-to.
   */
  lemma DrawingIffPathStarted(c: Canvas)
    requires c.Valid()
    ensures c.isDrawing <==> (c.currentPath != "" && c.currentPath[0] == 'M')
  {
    SerializeShape(c.commands);
  }

  /**
   * Every committed path text, and the path in progress while drawing,
   * reads back as a stroke whose coordinates are all accepted.
   */
  lemma PathTextsAccepted(c: Canvas)
    requires c.Valid()
    ensures c.isDrawing ==> IsAcceptedStrokeText(c.currentPath)
    ensures forall i :: 0 <= i < |c.paths| ==> IsAcceptedStrokeText(c.paths[i].path)
  {
    ParseSerialize(c.commands);
    forall i | 0 <= i < |c.paths| ensures IsAcceptedStrokeText(c.paths[i].path) {
      ParseSerialize(c.committed[i]);
    }
  }

  /** A palette button: sets the store color to that palette entry. */
  method PickColor(store: PaintStore.Store, index: nat)
    requires index < |Palette|
    modifies store
    ensures store.color == Palette[index]
    ensures store.selectedImage == old(store.selectedImage)
  {
    store.SetColor(Palette[index]);
  }

  /** Touch-down then release at once commits a one-command path. */
  method Tap(c: Canvas, store: PaintStore.Store, x: int, y: int)
    requires c.Valid() && Accepts(Point(x, y))
    modifies c
    ensures c.Valid()
    ensures c.paths == old(c.paths) + [Stroke(Serialize([MoveTo(Point(x, y))]), store.color)]
    ensures c.currentPath == "" && !c.isDrawing
  {
    c.Grant(x, y);
    c.Release(store);
  }

  /** Down at (50,50), moves to (60,60) and (70,80), release with red selected. */
  method DrawRedStroke() returns (strokes: seq<Stroke>)
    ensures strokes == [Stroke("M 50 50 L 60 60 L 70 80", "#FF0000")]
  {
    var store := new PaintStore.Store();
    PickColor(store, 1);
    var c := new Canvas();
    assert IntToString(50) == "50" && IntToString(60) == "60";
    assert IntToString(70) == "70" && IntToString(80) == "80";
    c.Grant(50, 50);
    assert c.currentPath == "M 50 50";
    c.Move(60, 60);
    assert c.currentPath == "M 50 50 L 60 60";
    c.Move(70, 80);
    assert c.currentPath == "M 50 50 L 60 60 L 70 80";
    c.Release(store);
    strokes := c.paths;
  }

  /**
   * Down in the dead-zone, then a move to a valid point, then release: the
   * move is ignored because no stroke was started, so nothing is committed.
   */
  method DeadZoneStartDrawsNothing() returns (strokes: seq<Stroke>)
    ensures strokes == []
  {
    var store := new PaintStore.Store();
    var c := new Canvas();
    c.Grant(5, 5);
    c.Move(50, 50);
    c.Release(store);
    strokes := c.paths;
  }

  /** Down outside the surface then release: nothing is committed. */
  method OutOfBoundsDrawsNothing() returns (strokes: seq<Stroke>)
    ensures strokes == []
  {
    var store := new PaintStore.Store();
    var c := new Canvas();
    c.Grant(600, 600);
    c.Release(store);
    strokes := c.paths;
  }

  /** Two strokes committed one after another keep their order. */
  method TwoStrokesKeepOrder(store: PaintStore.Store) returns (strokes: seq<Stroke>)
    ensures |strokes| == 2
    ensures strokes[0].path == Serialize([MoveTo(Point(20, 20))])
    ensures strokes[1].path == Serialize([MoveTo(Point(30, 30)), LineTo(Point(40, 40))])
  {
    var c := new Canvas();
    c.Grant(20, 20);
    c.Release(store);
    c.Grant(30, 30);
    c.Move(40, 40);
    c.Release(store);
    strokes := c.paths;
  }
}
