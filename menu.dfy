/** The main menu of killerasteroids/menu.py: four options in a ring, one of
    them selected, moved by the arrow keys and chosen with RETURN. */
module Menu {
  import opened Util
  import opened Text
  import Input

  /** What RETURN dispatches to: the game loop, the high-score screen, the
      help screen or the end of the process. */
  datatype Action = NoAction | StartGame | ShowHighscore | ShowHelp | QuitGame

  const OPTION_NAMES: seq<string> := ["START GAME", "HIGHSCORE", "HELP", "QUIT"]
  const OPTION_ACTIONS: seq<Action> := [StartGame, ShowHighscore, ShowHelp, QuitGame]

  /** The option below k on the ring. */
  function Below(k: int): int {
    (k + 1) % 4
  }

  /** The option above k on the ring. */
  function Above(k: int): int {
    (k + 3) % 4
  }

  /** Going down then up, or up then down, returns to the start; four steps
      down go round the whole ring. */
  lemma RingInverse(k: int)
    requires 0 <= k < 4
    ensures Above(Below(k)) == k && Below(Above(k)) == k
    ensures Below(Below(Below(Below(k)))) == k
  {
  }

  /** Each name belongs to its own option only, so comparing the selected
      text against a name tells which option is selected. */
  lemma NameIdentifies(k: int)
    requires 0 <= k < 4
    ensures OPTION_NAMES[k] == "START GAME" <==> k == 0
    ensures OPTION_NAMES[k] == "HIGHSCORE" <==> k == 1
    ensures OPTION_NAMES[k] == "HELP" <==> k == 2
    ensures OPTION_NAMES[k] == "QUIT" <==> k == 3
  {
    assert "START GAME"[0] == 'S' && "HIGHSCORE"[0] == 'H' && "HELP"[0] == 'H' && "QUIT"[0] == 'Q';
    assert |"HIGHSCORE"| == 9 && |"HELP"| == 4;
  }

  class MainMenu {
    const options: seq<MenuOptionText>

    /** Four distinct option objects named in menu order, exactly one of
        them selected. */
    ghost predicate Valid()
      reads this, options
    {
      Arranged(options)
    }

    static ghost predicate Arranged(options: seq<MenuOptionText>)
      reads options
    {
      && |options| == 4
      && (forall i, j :: 0 <= i < j < 4 ==> options[i] != options[j])
      && (forall i :: 0 <= i < 4 ==> options[i].text == OPTION_NAMES[i])
      && OnlySelected(Flags(options), LastSelected(Flags(options)))
    }

    /** The menu as the constructor builds it is arranged, START GAME selected. */
    static lemma FirstArrangement(options: seq<MenuOptionText>)
      requires |options| == 4
      requires options[0] != options[1] && options[0] != options[2] && options[0] != options[3]
      requires options[1] != options[2] && options[1] != options[3] && options[2] != options[3]
      requires options[0].text == OPTION_NAMES[0] && options[1].text == OPTION_NAMES[1]
      requires options[2].text == OPTION_NAMES[2] && options[3].text == OPTION_NAMES[3]
      requires options[0].isSelected && !options[1].isSelected && !options[2].isSelected && !options[3].isSelected
      ensures Arranged(options) && LastSelected(Flags(options)) == 0
    {
      OnlySelectedIsLast(Flags(options), 0);
    }

    /** The index of the selected option. */
    ghost function Selected(): int
      reads this, options
    {
      LastSelected(Flags(options))
    }

    /** START GAME is selected at first, and only it. */
    constructor ()
      ensures Valid() && Selected() == 0
      ensures forall i :: 0 <= i < 4 ==> fresh(options[i])
    {
      var start := new MenuOptionText(OPTION_NAMES[0], true);
      var highscore := new MenuOptionText(OPTION_NAMES[1], false);
      var help := new MenuOptionText(OPTION_NAMES[2], false);
      var quit := new MenuOptionText(OPTION_NAMES[3], false);
      options := [start, highscore, help, quit];
      new;
      FirstArrangement(options);
    }

    /** The options' flags after options[a] and options[b] changed state. */
    static lemma SwapMovesSelection(before: seq<bool>, after: seq<bool>, a: int, b: int)
      requires |before| == |after| && OnlySelected(before, a) && 0 <= b < |before| && a != b
      requires after[a] == !before[a] && after[b] == !before[b]
      requires forall i :: 0 <= i < |before| && i != a && i != b ==> after[i] == before[i]
      ensures OnlySelected(after, b) && LastSelected(after) == b
    {
      OnlySelectedIsLast(after, b);
    }

    method Swap(a: int, b: int)
      requires Valid() && 0 <= a < 4 && 0 <= b < 4 && a != b && Selected() == a
      modifies options
      ensures Valid() && Selected() == b
      ensures forall i :: 0 <= i < 4 ==> options[i].color == old(options[i].color)
    {
      ghost var before := Flags(options);
      options[a].ChangeState();
      options[b].ChangeState();
      ghost var after := Flags(options);
      assert after[a] == !before[a] && after[b] == !before[b];
      assert forall i :: 0 <= i < 4 && i != a && i != b ==> options[i] != options[a] && options[i] != options[b];
      SwapMovesSelection(before, after, a, b);
    }

    /** The DOWN block of update_selected_option: the option holding
        `current` hands the selection to the one below it. */
    method MoveDown(current: Option<string>)
      requires Valid() && current == Some(OPTION_NAMES[Selected()])
      modifies options
      ensures Valid() && Selected() == Below(old(Selected()))
      ensures forall i :: 0 <= i < 4 ==> options[i].color == old(options[i].color)
    {
      ghost var sel := Selected();
      NameIdentifies(sel);
      if current == Some("START GAME") {
        Swap(0, 1);
      } else if current == Some("HIGHSCORE") {
        Swap(1, 2);
      } else if current == Some("HELP") {
        Swap(2, 3);
      } else if current == Some("QUIT") {
        Swap(3, 0);
      }
    }

    /** The UP block of update_selected_option: the option holding `current`
        hands the selection to the one above it. */
    method MoveUp(current: Option<string>)
      requires Valid() && current == Some(OPTION_NAMES[Selected()])
      modifies options
      ensures Valid() && Selected() == Above(old(Selected()))
      ensures forall i :: 0 <= i < 4 ==> options[i].color == old(options[i].color)
    {
      ghost var sel := Selected();
      NameIdentifies(sel);
      if current == Some("START GAME") {
        Swap(0, 3);
      } else if current == Some("HIGHSCORE") {
        Swap(1, 0);
      } else if current == Some("HELP") {
        Swap(2, 1);
      } else if current == Some("QUIT") {
        Swap(3, 2);
      }
    }

    /** MainMenu.update_selected_option(key): DOWN and UP move the selection
        round the ring, RETURN names the action of the selected option, any
        other key does nothing. */
    method UpdateSelectedOption(key: Input.Key) returns (action: Action)
      requires Valid()
      modifies options
      ensures Valid()
      ensures key == Input.Down ==> Selected() == Below(old(Selected())) && action == NoAction
      ensures key == Input.Up ==> Selected() == Above(old(Selected())) && action == NoAction
      ensures key == Input.Return ==> action == OPTION_ACTIONS[old(Selected())]
      ensures key != Input.Up && key != Input.Down ==>
        forall i :: 0 <= i < 4 ==> options[i].isSelected == old(options[i].isSelected)
      ensures key != Input.Up && key != Input.Down && key != Input.Return ==> action == NoAction
      ensures forall i :: 0 <= i < 4 ==> options[i].color == old(options[i].color)
    {
      var current := CurrentText(options);
      ghost var sel := Selected();
      assert current == Some(OPTION_NAMES[sel]);
      action := NoAction;
      if key == Input.Down {
        MoveDown(current);
      } else if key == Input.Up {
        MoveUp(current);
      } else if key == Input.Return {
        NameIdentifies(sel);
        if current == Some("START GAME") {
          action := StartGame;
        } else if current == Some("HIGHSCORE") {
          action := ShowHighscore;
        } else if current == Some("HELP") {
          action := ShowHelp;
        } else if current == Some("QUIT") {
          action := QuitGame;
        }
      }
    }

    /** One event of MainMenu.main: QUIT or ESCAPE end the process; every
        other key press goes to update_selected_option, because the test
        `key == K_UP or key == K_DOWN or K_RETURN` is always true. */
    method HandleEvent(event: Input.Event) returns (action: Action, exit: bool)
      requires Valid()
      modifies options
      ensures Valid()
      ensures exit <==> event == Input.Quit || event == Input.KeyDown(Input.Escape)
      ensures !event.KeyDown? || exit ==>
        action == NoAction && forall i :: 0 <= i < 4 ==> options[i].isSelected == old(options[i].isSelected)
      ensures event.KeyDown? && event.key == Input.Return ==> action == OPTION_ACTIONS[old(Selected())]
      ensures event.KeyDown? && event.key == Input.Down ==> Selected() == Below(old(Selected()))
      ensures event.KeyDown? && event.key == Input.Up ==> Selected() == Above(old(Selected()))
    {
      action, exit := NoAction, false;
      if event == Input.Quit || event == Input.KeyDown(Input.Escape) {
        exit := true;
      } else if event.KeyDown? {
        action := UpdateSelectedOption(event.key);
      }
    }
  }

  /** DOWN then UP gives back the selection the menu had. */
  method DownThenUp(menu: MainMenu)
    requires menu.Valid()
    modifies menu.options
    ensures menu.Valid() && menu.Selected() == old(menu.Selected())
  {
    var _ := menu.UpdateSelectedOption(Input.Down);
    var _ := menu.UpdateSelectedOption(Input.Up);
    RingInverse(old(menu.Selected()));
  }

  /** Four presses of DOWN go all the way round. */
  method FourDowns(menu: MainMenu)
    requires menu.Valid()
    modifies menu.options
    ensures menu.Valid() && menu.Selected() == old(menu.Selected())
  {
    var _ := menu.UpdateSelectedOption(Input.Down);
    var _ := menu.UpdateSelectedOption(Input.Down);
    var _ := menu.UpdateSelectedOption(Input.Down);
    var _ := menu.UpdateSelectedOption(Input.Down);
    RingInverse(old(menu.Selected()));
  }
}
