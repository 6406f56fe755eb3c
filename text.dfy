/** The text sprites of game/text.py that carry state: the scrolling banner
    and the menu option with its selection flag. */
module Text {
  import opened Settings
  import opened Util

  /** BannerText's speed, `[5, 0]` in the source. */
  const BANNER_SPEED := 5

  /** BannerText.update: scroll right until x reaches WIDTH + 300, then jump
      back to x = -200. */
  function BannerStep(x: int): (r: int)
    ensures -200 <= x <= WIDTH + 304 ==> -200 <= r <= WIDTH + 304
    ensures r == x + BANNER_SPEED <==> x < WIDTH + 300
    ensures r == -200 <==> x >= WIDTH + 300 || x == -200 - BANNER_SPEED
  {
    if !(x >= WIDTH + 300) then x + BANNER_SPEED else -200
  }

  /** A banner placed at x = 0, such as GAME OVER, has moved to x = 5 after
      one update. */
  lemma BannerFirstStep()
    ensures BannerStep(0) == BANNER_SPEED
  {
  }

  class BannerText {
    const text: string
    var x: int
    var y: int

    constructor (text: string, position: (int, int))
      ensures this.text == text && x == position.0 && y == position.1
    {
      this.text := text;
      x, y := position.0, position.1;
    }

    method Update()
      modifies this
      ensures x == BannerStep(old(x)) && y == old(y)
    {
      if !(x >= WIDTH + 300) {
        x := x + BANNER_SPEED;
      } else {
        x := -200;
      }
    }
  }

  /** The colour MenuOptionText.update renders its text in. */
  function OptionColor(selected: bool): (c: Color)
    ensures c == ACTIVE_OPTION <==> selected
    ensures c == TEXT_COLOR <==> !selected
  {
    if selected then ACTIVE_OPTION else TEXT_COLOR
  }

  class MenuOptionText {
    const text: string
    var isSelected: bool
    /** The colour of the rendered image. */
    var color: Color

    /** The text is first rendered in TEXT_COLOR, whatever the flag. */
    constructor (text: string, selected: bool)
      ensures this.text == text && isSelected == selected && color == TEXT_COLOR
    {
      this.text := text;
      isSelected := selected;
      color := TEXT_COLOR;
    }

    /** MenuOptionText.update: re-render in the colour of the selection state. */
    method Update()
      modifies this
      ensures color == OptionColor(isSelected) && isSelected == old(isSelected)
    {
      if GetState() {
        color := ACTIVE_OPTION;
      } else {
        color := TEXT_COLOR;
      }
    }

    function GetState(): bool
      reads this
    {
      isSelected
    }

    /** Flips the flag. Like the source, it gives back no value. */
    method ChangeState()
      modifies this
      ensures isSelected == !old(isSelected) && color == old(color)
    {
      if GetState() {
        isSelected := false;
      } else {
        isSelected := true;
      }
    }
  }

  /** Changing the state twice restores it. */
  method ChangeStateTwice(option: MenuOptionText)
    modifies option
    ensures option.isSelected == old(option.isSelected)
  {
    option.ChangeState();
    option.ChangeState();
  }

  // ---------------------------------------------------------------------
  // Selection in a list of options (shared by the main and the pause menu)
  // ---------------------------------------------------------------------

  /** The selection flags of a list of options. */
  function Flags(options: seq<MenuOptionText>): (r: seq<bool>)
    reads options
    ensures |r| == |options|
    ensures forall i :: 0 <= i < |options| ==> r[i] == options[i].isSelected
    decreases |options|
  {
    if options == [] then [] else Flags(options[..|options| - 1]) + [options[|options| - 1].isSelected]
  }

  /** The index of the last raised flag, or -1 when none is raised. */
  function LastSelected(flags: seq<bool>): (r: int)
    ensures -1 <= r < |flags|
    ensures r >= 0 ==> flags[r] && forall j :: r < j < |flags| ==> !flags[j]
    ensures r == -1 ==> forall j :: 0 <= j < |flags| ==> !flags[j]
    decreases |flags|
  {
    if flags == [] then -1
    else if flags[|flags| - 1] then |flags| - 1
    else LastSelected(flags[..|flags| - 1])
  }

  /** Exactly the flag at index k is raised. */
  predicate OnlySelected(flags: seq<bool>, k: int) {
    0 <= k < |flags| && forall i :: 0 <= i < |flags| ==> (flags[i] <==> i == k)
  }

  lemma OnlySelectedIsLast(flags: seq<bool>, k: int)
    requires OnlySelected(flags, k)
    ensures LastSelected(flags) == k
  {
  }

  /** The text of the selected option the way both menus find it: the loop
      keeps the last option in list order whose state is set. */
  method CurrentText(options: seq<MenuOptionText>) returns (current: Option<string>)
    ensures var k := LastSelected(Flags(options));
      current == if k < 0 then None else Some(options[k].text)
  {
    ghost var flags := Flags(options);
    current := None;
    var i := 0;
    while i < |options|
      invariant 0 <= i <= |options|
      invariant var k := LastSelected(flags[..i]);
        current == if k < 0 then None else Some(options[k].text)
    {
      assert flags[..i + 1][..i] == flags[..i];
      if options[i].GetState() {
        current := Some(options[i].text);
      }
      i := i + 1;
    }
    assert flags[..i] == flags;
  }
}
