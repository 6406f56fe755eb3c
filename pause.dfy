/** The pause menu of killerasteroids/display.py (class PauseMenu): two
    options, RESUME and QUIT, one of them selected. */
module Pause {
  import opened Util
  import opened Text
  import Input

  /** What update_selected_option leads to: nothing, "RESUME GAME" or sys.exit(). */
  datatype Choice = NoChoice | ResumeGame | ExitGame

  const PAUSE_OPTIONS: seq<string> := ["RESUME", "QUIT"]

  class PauseMenu {
    const options: seq<MenuOptionText>

    ghost predicate Valid()
      reads this, options
    {
      && |options| == 2 && options[0] != options[1]
      && options[0].text == PAUSE_OPTIONS[0] && options[1].text == PAUSE_OPTIONS[1]
      && OnlySelected(Flags(options), LastSelected(Flags(options)))
    }

    ghost function Selected(): int
      reads this, options
    {
      LastSelected(Flags(options))
    }

    /** RESUME is selected when the menu opens. */
    constructor ()
      ensures Valid() && Selected() == 0
      ensures fresh(options[0]) && fresh(options[1])
    {
      var resume := new MenuOptionText("RESUME", true);
      var quit := new MenuOptionText("QUIT", false);
      options := [resume, quit];
      new;
      OnlySelectedIsLast(Flags(options), 0);
    }

    /** Both options change state, which moves the selection to the other one. */
    method ToggleBoth()
      requires Valid()
      modifies options
      ensures Valid() && Selected() == 1 - old(Selected())
      ensures options[0].color == old(options[0].color) && options[1].color == old(options[1].color)
    {
      ghost var was := Selected();
      options[0].ChangeState();
      options[1].ChangeState();
      OnlySelectedIsLast(Flags(options), 1 - was);
    }

    /** PauseMenu.update_selected_option(key): UP and DOWN both swap the
        selection; RETURN resumes on RESUME and exits on QUIT. */
    method UpdateSelectedOption(key: Input.Key) returns (choice: Choice)
      requires Valid()
      modifies options
      ensures Valid()
      ensures key == Input.Up || key == Input.Down ==>
        Selected() == 1 - old(Selected()) && choice == NoChoice
      ensures key != Input.Up && key != Input.Down ==>
        options[0].isSelected == old(options[0].isSelected) &&
        options[1].isSelected == old(options[1].isSelected)
      ensures key == Input.Return ==>
        choice == if old(Selected()) == 0 then ResumeGame else ExitGame
      ensures key != Input.Up && key != Input.Down && key != Input.Return ==> choice == NoChoice
      ensures options[0].color == old(options[0].color) && options[1].color == old(options[1].color)
    {
      var current := CurrentText(options);
      choice := NoChoice;
      if key == Input.Down {
        if current == Some("RESUME") {
          ToggleBoth();
        } else if current == Some("QUIT") {
          ToggleBoth();
        }
      } else if key == Input.Up {
        if current == Some("RESUME") {
          ToggleBoth();
        } else if current == Some("QUIT") {
          ToggleBoth();
        }
      } else if key == Input.Return {
        if current == Some("RESUME") {
          choice := ResumeGame;
        } else if current == Some("QUIT") {
          choice := ExitGame;
        }
      }
    }
  }
}
