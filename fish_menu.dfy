/** The flappy-fish main menu (flappy-fish/code/Menu_Scene.cpp): a vertical stack of
    two options, PLAY and QUIT, matched against touches. The atlas slices of the
    options, whether the resources loaded, and the director's run_scene and stop
    calls (returned here as an Outcome) belong to the host framework. */
module FishMenu {
  import opened Basics

  datatype MenuState = Loading | Ready | Error

  const NumberOfOptions: nat := 2
  const Play: nat := 0
  const Quit: nat := 1

  /** The size of an atlas slice. */
  datatype Slice = Slice(width: real, height: real)

  /** One menu option: its slice, the position of its top centre, and whether it is
      pressed (a float in the source that only ever holds true or false). */
  datatype MenuOption = MenuOption(slice: Slice, position: Point, isPressed: bool)

  /** What a touch on the menu asks the director for. */
  datatype Outcome = NoAction | RunGame | StopGame

  /** The point lies strictly inside the box reaching one slice width and one slice
      height from the option's position in each direction. */
  predicate Inside(option: MenuOption, point: Point)
  {
    point.x > option.position.x - option.slice.width &&
    point.x < option.position.x + option.slice.width &&
    point.y > option.position.y - option.slice.height &&
    point.y < option.position.y + option.slice.height
  }

  /** The first option at index `from` or later whose box holds the point, or -1. */
  function OptionAtFrom(options: seq<MenuOption>, point: Point, from: nat): (r: int)
    requires from <= |options|
    ensures r == -1 || from <= r < |options|
    ensures r >= 0 ==> Inside(options[r], point) &&
                       forall j :: from <= j < r ==> !Inside(options[j], point)
    ensures r == -1 <==> forall j :: from <= j < |options| ==> !Inside(options[j], point)
    decreases |options| - from
  {
    if from == |options| then -1
    else if Inside(options[from], point) then from
    else OptionAtFrom(options, point, from + 1)
  }

  /** The option touched at `point`: the lowest index whose box holds it, or -1. */
  function OptionAt(options: seq<MenuOption>, point: Point): (r: int)
    ensures r == -1 || 0 <= r < |options|
    ensures r >= 0 ==> Inside(options[r], point) &&
                       forall j :: 0 <= j < r ==> !Inside(options[j], point)
    ensures r == -1 <==> forall j :: 0 <= j < |options| ==> !Inside(options[j], point)
  {
    OptionAtFrom(options, point, 0)
  }

  /** Two option lists with the same boxes, pressed or not, answer every hit test alike. */
  lemma OptionAtIgnoresPressed(a: seq<MenuOption>, b: seq<MenuOption>, point: Point)
    requires |a| == |b|
    requires forall j :: 0 <= j < |a| ==> a[j].slice == b[j].slice && a[j].position == b[j].position
    ensures OptionAt(a, point) == OptionAt(b, point)
  {
    var ra, rb := OptionAt(a, point), OptionAt(b, point);
    assert forall j :: 0 <= j < |a| ==> (Inside(a[j], point) <==> Inside(b[j], point));
    if ra >= 0 && rb >= 0 {
      assert !(ra < rb) && !(rb < ra);
    }
  }

  /** No two options are pressed at once. */
  predicate AtMostOnePressed(options: seq<MenuOption>)
  {
    forall i, j :: 0 <= i < |options| && 0 <= j < |options| && options[i].isPressed && options[j].isPressed ==> i == j
  }

  /** What releasing a touch over option `touched` does. */
  function ReleaseOutcome(touched: int): (o: Outcome)
    ensures o == RunGame <==> touched == Play as int
    ensures o == StopGame <==> touched == Quit as int
  {
    if touched == Play as int then RunGame
    else if touched == Quit as int then StopGame
    else NoAction
  }

  /** The slice heights of the options, top to bottom. */
  function Heights(options: seq<MenuOption>): (hs: seq<real>)
    ensures |hs| == |options|
  {
    seq(|options|, j requires 0 <= j < |options| => options[j].slice.height)
  }

  /** The total of some heights. */
  function Sum(hs: seq<real>): (total: real)
  {
    if hs == [] then 0.0 else hs[0] + Sum(hs[1..])
  }

  /** Adding one height at the end adds it to the total. */
  lemma {:induction false} SumAppend(hs: seq<real>, last: real)
    ensures Sum(hs + [last]) == Sum(hs) + last
  {
    if hs != [] {
      assert (hs + [last])[1..] == hs[1..] + [last];
      SumAppend(hs[1..], last);
    }
  }

  /** Top edge of option j in a stack of options of heights `hs` centred vertically on
      `centre`: the stack's top edge less the heights above j. OptionTop(hs, centre, |hs|)
      is the bottom edge of the last option. */
  function OptionTop(hs: seq<real>, centre: real, j: nat): (top: real)
    requires j <= |hs|
    // the stack starts half its height above the centre and ends half its height below
    ensures j == 0 ==> top == centre + Sum(hs) / 2.0
    ensures j == |hs| ==> top == centre - Sum(hs) / 2.0
  {
    assert hs[..0] == [];
    assert hs[..|hs|] == hs;
    centre + Sum(hs) / 2.0 - Sum(hs[..j])
  }

  /** Each option starts where the one above it ends. */
  lemma MenuStackCentred(hs: seq<real>, centre: real)
    ensures forall j :: 0 <= j < |hs| ==> OptionTop(hs, centre, j + 1) == OptionTop(hs, centre, j) - hs[j]
  {
    forall j | 0 <= j < |hs|
      ensures Sum(hs[..j + 1]) == Sum(hs[..j]) + hs[j]
    {
      assert hs[..j + 1] == hs[..j] + [hs[j]];
      SumAppend(hs[..j], hs[j]);
    }
  }

  class MenuScene {
    var state: MenuState
    var suspended: bool
    const canvasWidth: nat
    const canvasHeight: nat
    const options: array<MenuOption>

    ghost predicate Valid()
      reads this
    {
      options.Length == NumberOfOptions
    }

    /** The options hold the given slices, stacked centred on the canvas, none pressed. */
    ghost predicate Configured(play: Slice, quit: Slice)
      requires Valid()
      reads this, options
    {
      options[Play].slice == play && options[Quit].slice == quit &&
      forall j :: 0 <= j < NumberOfOptions ==>
        !options[j].isPressed &&
        options[j].position == Point(canvasWidth as real / 2.0, OptionTop(Heights(options[..]), canvasHeight as real / 2.0, j))
    }

    constructor ()
      ensures Valid() && fresh(options)
      ensures state == Loading && suspended && canvasWidth == 720 && canvasHeight == 1280
    {
      state := Loading;
      suspended := true;
      canvasWidth := 720;
      canvasHeight := 1280;
      options := new MenuOption[NumberOfOptions];
    }

    /** Releases every option. */
    method Initialize() returns (ok: bool)
      requires Valid()
      modifies options
      ensures ok
      ensures forall j :: 0 <= j < options.Length ==> options[j] == old(options[j]).(isPressed := false)
    {
      var index := 0;
      while index < options.Length
        invariant 0 <= index <= options.Length
        invariant forall j :: 0 <= j < index ==> options[j] == old(options[j]).(isPressed := false)
        invariant forall j :: index <= j < options.Length ==> options[j] == old(options[j])
      {
        options[index] := options[index].(isPressed := false);
        index := index + 1;
      }
      ok := true;
    }

    method Suspend()
      modifies this`suspended
      ensures suspended
    {
      suspended := true;
    }

    method Resume()
      modifies this`suspended
      ensures !suspended
    {
      suspended := false;
    }

    /** While ready: a touch starting or moving presses exactly the option under it (or
        none); a touch ending releases every option and asks to start the game over
        PLAY or to stop over QUIT. Every event is ignored while not ready. */
    method Handle(event: Event) returns (outcome: Outcome)
      requires Valid()
      modifies options
      ensures state != Ready || event.OtherEvent? ==>
                outcome == NoAction && options[..] == old(options[..])
      ensures state == Ready && (event.TouchStarted? || event.TouchMoved?) ==>
                outcome == NoAction &&
                forall j :: 0 <= j < options.Length ==>
                  options[j] == old(options[j]).(isPressed := j == OptionAt(old(options[..]), event.at))
      ensures state == Ready && event.TouchEnded? ==>
                outcome == ReleaseOutcome(OptionAt(old(options[..]), event.at)) &&
                forall j :: 0 <= j < options.Length ==> options[j] == old(options[j]).(isPressed := false)
      ensures state == Ready && !event.OtherEvent? ==> AtMostOnePressed(options[..])
    {
      outcome := NoAction;
      if state == Ready {
        match event {
          case TouchStarted(at) =>
            PressOnly(OptionAt(options[..], at));
          case TouchMoved(at) =>
            PressOnly(OptionAt(options[..], at));
          case TouchEnded(at) =>
            ghost var before := options[..];
            var index := 0;
            while index < options.Length
              invariant 0 <= index <= options.Length
              invariant forall j :: 0 <= j < index ==> options[j] == old(options[j]).(isPressed := false)
              invariant forall j :: index <= j < options.Length ==> options[j] == old(options[j])
            {
              options[index] := options[index].(isPressed := false);
              index := index + 1;
            }
            OptionAtIgnoresPressed(options[..], before, at);
            outcome := ReleaseOutcome(OptionAt(options[..], at));
          case OtherEvent =>
        }
      }
    }

    /** The loop of Handle for a touch starting or moving: option `touched` is pressed,
        every other one released. */
    method PressOnly(touched: int)
      requires Valid()
      modifies options
      ensures forall j :: 0 <= j < options.Length ==> options[j] == old(options[j]).(isPressed := j == touched)
      ensures AtMostOnePressed(options[..])
    {
      var index := 0;
      while index < NumberOfOptions
        invariant 0 <= index <= NumberOfOptions
        invariant forall j :: 0 <= j < index ==> options[j] == old(options[j]).(isPressed := j == touched)
        invariant forall j :: index <= j < NumberOfOptions ==> options[j] == old(options[j])
      {
        options[index] := options[index].(isPressed := index == touched);
        index := index + 1;
      }
    }

    /** While not suspended and loading: once the atlas and the background have loaded
        (`loaded`), the menu becomes ready and its options are laid out. */
    method Update(time: real, loaded: bool, play: Slice, quit: Slice)
      requires Valid()
      modifies this`state, options
      ensures Valid()
      ensures !suspended && old(state) == Loading && loaded ==> state == Ready && Configured(play, quit)
      ensures !(!suspended && old(state) == Loading && loaded) ==>
                state == old(state) && options[..] == old(options[..])
    {
      if !suspended {
        if state == Loading {
          if loaded {
            state := Ready;
          }
          if state == Ready {
            ConfigureOptions(play, quit);
          }
        }
      }
    }

    /** Gives PLAY and QUIT their slices and stacks the options from the top, centred
        horizontally and vertically on the canvas, none pressed. */
    method ConfigureOptions(play: Slice, quit: Slice)
      requires Valid()
      modifies options
      ensures Configured(play, quit)
      ensures forall j :: 0 <= j < NumberOfOptions - 1 ==>
                options[j + 1].position.y == options[j].position.y - options[j].slice.height
      ensures options[0].position.y == canvasHeight as real / 2.0 + (play.height + quit.height) / 2.0
    {
      options[Play] := options[Play].(slice := play);
      options[Quit] := options[Quit].(slice := quit);

      ghost var stacked := options[..];
      ghost var hs := Heights(stacked);
      assert stacked[Play].slice == play && stacked[Quit].slice == quit;
      var menuHeight := 0.0;
      var index := 0;
      while index < options.Length
        invariant 0 <= index <= options.Length
        invariant options[..] == stacked
        invariant menuHeight == Sum(hs[..index])
      {
        assert hs[..index + 1] == hs[..index] + [hs[index]];
        SumAppend(hs[..index], hs[index]);
        menuHeight := menuHeight + options[index].slice.height;
        index := index + 1;
      }
      assert hs[..index] == hs;

      var optionTop := canvasHeight as real / 2.0 + menuHeight / 2.0;
      MenuStackCentred(hs, canvasHeight as real / 2.0);
      index := 0;
      while index < NumberOfOptions
        invariant 0 <= index <= NumberOfOptions
        invariant optionTop == OptionTop(hs, canvasHeight as real / 2.0, index)
        invariant forall j :: 0 <= j < NumberOfOptions ==>
                    options[j].slice == stacked[j].slice && options[j].isPressed == stacked[j].isPressed
        invariant forall j :: 0 <= j < index ==>
                    options[j].position == Point(canvasWidth as real / 2.0, OptionTop(hs, canvasHeight as real / 2.0, j))
      {
        options[index] := options[index].(position := Point(canvasWidth as real / 2.0, optionTop));
        optionTop := optionTop - options[index].slice.height;
        index := index + 1;
      }

      ghost var placed := options[..];
      var _ := Initialize();
      assert forall j :: 0 <= j < NumberOfOptions ==> options[j] == placed[j].(isPressed := false);
      assert forall j :: 0 <= j < NumberOfOptions ==> Heights(options[..])[j] == hs[j];
      assert Heights(options[..]) == hs;
      assert Sum(hs[..1]) == hs[0] by { assert hs[..1][1..] == []; }
    }
  }
}
