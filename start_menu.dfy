/** The form of js/ui/StartMenu.js: two text fields (nick, email), focus
    switching, key editing, the start check and the click rules. Viewport
    size and device type are inputs; drawing is not modelled. */
module StartMenus {

  import opened Common
  import PlayerStore

  datatype Field = NickField | EmailField

  /** A closed rectangle on the virtual canvas. */
  datatype Rect = Rect(x: real, y: real, w: real, h: real)

  predicate Inside(r: Rect, px: real, py: real)
  {
    r.x <= px <= r.x + r.w && r.y <= py <= r.y + r.h
  }

  const MaxNickInput := 20
  const MaxEmailInput := 40

  /** setupLayout: the nick field, the email field and the start button. */
  function Layout(vw: real, vh: real, mobile: bool): (l: (Rect, Rect, Rect))
    ensures l.0.x == l.1.x && l.0.w == l.1.w && l.0.h == l.1.h
    ensures l.1.y == l.0.y + (if mobile then 80.0 else 70.0)
    ensures l.2.y > l.1.y + l.1.h
  {
    var height := if mobile then 650.0 else 520.0;
    var centerX := vw / 2.0;
    var formY := vh / 2.0 - height / 2.0;
    var fieldsStartY := if mobile then formY + 180.0 else formY + 230.0;
    var fieldX := centerX - 150.0 + 80.0 + 10.0;
    var fieldW := if mobile then 220.0 else 200.0;
    var fieldH := if mobile then 40.0 else 35.0;
    var buttonW := if mobile then 200.0 else 180.0;
    var buttonH := if mobile then 50.0 else 45.0;
    (Rect(fieldX, fieldsStartY, fieldW, fieldH),
     Rect(fieldX, fieldsStartY + (if mobile then 80.0 else 70.0), fieldW, fieldH),
     Rect(centerX - buttonW / 2.0, fieldsStartY + (if mobile then 180.0 else 160.0), buttonW, buttonH))
  }

  /** The checks of validateAndStart: nick required, nick of at least 2
      characters, email required. There is no upper bound here. */
  function MenuCheck(nick: string, email: string): (err: Option<PlayerStore.DataError>)
    ensures err.None? <==> |PlayerStore.Trim(nick)| >= 2 && PlayerStore.Trim(email) != ""
    ensures err.Some? ==> err.value in {PlayerStore.NickRequired, PlayerStore.NickTooShort, PlayerStore.EmailRequired}
  {
    if |PlayerStore.Trim(nick)| == 0 then Some(PlayerStore.NickRequired)
    else if |PlayerStore.Trim(nick)| < 2 then Some(PlayerStore.NickTooShort)
    else if |PlayerStore.Trim(email)| == 0 then Some(PlayerStore.EmailRequired)
    else None
  }

  /** Within the typing limits the form accepts exactly what
      validatePlayerData accepts, and refuses for the same broken rule
      (the message texts differ for a missing email). */
  lemma MenuAgreesWithValidation(nick: string, email: string)
    requires |nick| <= MaxNickInput && |email| <= MaxEmailInput
    ensures MenuCheck(nick, email) == PlayerStore.Validate(Some(nick), Some(email))
  {
  }

  /** A nick longer than 20 characters without surrounding white space
      (one loaded from storage: typing stops at 20) passes the form but not
      validatePlayerData. */
  lemma LongNickPassesMenuOnly(nick: string, email: string)
    requires |nick| > MaxNickInput && !PlayerStore.IsSpace(nick[0]) && !PlayerStore.IsSpace(nick[|nick| - 1])
    requires PlayerStore.Trim(email) != ""
    ensures MenuCheck(nick, email).None?
    ensures PlayerStore.Validate(Some(nick), Some(email)) == Some(PlayerStore.NickTooLong)
  {
    PlayerStore.TrimKeeps(nick);
  }

  class StartMenu {
    var nickInput: string
    var emailInput: string
    var activeField: Field
    var nickActive: bool
    var emailActive: bool
    /** The message shown under the form; None for ''. */
    var error: Option<PlayerStore.DataError>
    var startHovered: bool
    const nickRect: Rect
    const emailRect: Rect
    const startRect: Rect

    /** A new form focused on the nick, filled from the stored data if any. */
    constructor (vw: real, vh: real, mobile: bool, saved: Option<map<string, string>>)
      ensures activeField == NickField && !nickActive && !emailActive && error == None && !startHovered
      ensures nickInput == (if saved.Some? && "nick" in saved.value then saved.value["nick"] else "")
      ensures emailInput == (if saved.Some? && "email" in saved.value then saved.value["email"] else "")
      ensures (nickRect, emailRect, startRect) == Layout(vw, vh, mobile)
    {
      nickInput := "";
      emailInput := "";
      if saved.Some? {
        nickInput := if "nick" in saved.value then saved.value["nick"] else "";
        emailInput := if "email" in saved.value then saved.value["email"] else "";
      }
      activeField := NickField;
      error := None;
      var l := Layout(vw, vh, mobile);
      nickRect := l.0;
      emailRect := l.1;
      startRect := l.2;
      nickActive := false;
      emailActive := false;
      startHovered := false;
    }

    /** update: hover follows the cursor over the start button. */
    method Update(px: real, py: real)
      modifies this`startHovered
      ensures startHovered <==> Inside(startRect, px, py)
    {
      startHovered := Inside(startRect, px, py);
    }

    /** validateAndStart: on success clear the error and return the trimmed
        nick and email; otherwise record the first failing check. */
    method ValidateAndStart() returns (data: Option<(string, string)>)
      modifies this`error
      ensures error == MenuCheck(nickInput, emailInput)
      ensures data.Some? <==> error.None?
      ensures data.Some? ==> data.value == (PlayerStore.Trim(nickInput), PlayerStore.Trim(emailInput))
    {
      var nick := PlayerStore.Trim(nickInput);
      var email := PlayerStore.Trim(emailInput);
      if |nick| == 0 {
        error := Some(PlayerStore.NickRequired);
        return None;
      }
      if |nick| < 2 {
        error := Some(PlayerStore.NickTooShort);
        return None;
      }
      if |email| == 0 {
        error := Some(PlayerStore.EmailRequired);
        return None;
      }
      error := None;
      return Some((nick, email));
    }

    /** handleKeyPress: Enter moves focus from nick to email or submits from
        email; Backspace drops the last character of the focused field; a
        single character is appended below the field's limit; every other
        key changes nothing. */
    method HandleKeyPress(key: string) returns (data: Option<(string, string)>)
      modifies this`nickInput, this`emailInput, this`activeField, this`nickActive, this`emailActive, this`error
      ensures key == "Enter" && old(activeField) == NickField ==>
                data == None && activeField == EmailField && !nickActive && emailActive &&
                nickInput == old(nickInput) && emailInput == old(emailInput) && error == old(error)
      ensures key == "Enter" && old(activeField) == EmailField ==>
                error == MenuCheck(nickInput, emailInput) &&
                (data.Some? <==> error.None?) &&
                (data.Some? ==> data.value == (PlayerStore.Trim(nickInput), PlayerStore.Trim(emailInput))) &&
                unchanged(this`nickInput, this`emailInput, this`activeField, this`nickActive, this`emailActive)
      ensures key != "Enter" ==>
                data == None && error == old(error) &&
                unchanged(this`activeField, this`nickActive, this`emailActive)
      ensures key == "Backspace" ==>
                (if activeField == NickField && old(nickInput) != []
                 then nickInput == old(nickInput)[..|old(nickInput)| - 1] else nickInput == old(nickInput)) &&
                (if activeField == EmailField && old(emailInput) != []
                 then emailInput == old(emailInput)[..|old(emailInput)| - 1] else emailInput == old(emailInput))
      ensures key != "Enter" && key != "Backspace" && |key| == 1 ==>
                (if activeField == NickField && |old(nickInput)| < MaxNickInput
                 then nickInput == old(nickInput) + key else nickInput == old(nickInput)) &&
                (if activeField == EmailField && |old(emailInput)| < MaxEmailInput
                 then emailInput == old(emailInput) + key else emailInput == old(emailInput))
      ensures key != "Enter" && key != "Backspace" && |key| != 1 ==>
                nickInput == old(nickInput) && emailInput == old(emailInput)
      ensures |old(nickInput)| <= MaxNickInput ==> |nickInput| <= MaxNickInput
      ensures |old(emailInput)| <= MaxEmailInput ==> |emailInput| <= MaxEmailInput
    {
      data := None;
      if key == "Enter" {
        if activeField == NickField {
          activeField := EmailField;
          nickActive := false;
          emailActive := true;
        } else {
          data := ValidateAndStart();
        }
        return;
      }
      if key == "Backspace" {
        if activeField == NickField && |nickInput| > 0 {
          nickInput := nickInput[..|nickInput| - 1];
        } else if activeField == EmailField && |emailInput| > 0 {
          emailInput := emailInput[..|emailInput| - 1];
        }
        return;
      }
      if |key| == 1 {
        if activeField == NickField && |nickInput| < MaxNickInput {
          nickInput := nickInput + key;
        } else if activeField == EmailField && |emailInput| < MaxEmailInput {
          emailInput := emailInput + key;
        }
      }
    }

    /** handleClick: a click in a field focuses it and only it; otherwise a
        hovered start button submits, and any other click unfocuses both. */
    method HandleClick(px: real, py: real) returns (data: Option<(string, string)>)
      modifies this`activeField, this`nickActive, this`emailActive, this`error
      ensures Inside(nickRect, px, py) ==>
                data == None && activeField == NickField && nickActive && !emailActive && error == old(error)
      ensures !Inside(nickRect, px, py) && Inside(emailRect, px, py) ==>
                data == None && activeField == EmailField && emailActive && !nickActive && error == old(error)
      ensures !Inside(nickRect, px, py) && !Inside(emailRect, px, py) && startHovered ==>
                error == MenuCheck(nickInput, emailInput) && (data.Some? <==> error.None?) &&
                (data.Some? ==> data.value == (PlayerStore.Trim(nickInput), PlayerStore.Trim(emailInput))) &&
                unchanged(this`activeField, this`nickActive, this`emailActive)
      ensures !Inside(nickRect, px, py) && !Inside(emailRect, px, py) && !startHovered ==>
                data == None && !nickActive && !emailActive && activeField == old(activeField) &&
                error == old(error)
    {
      if Inside(nickRect, px, py) {
        activeField := NickField;
        nickActive := true;
        emailActive := false;
        return None;
      }
      if Inside(emailRect, px, py) {
        activeField := EmailField;
        emailActive := true;
        nickActive := false;
        return None;
      }
      if startHovered {
        data := ValidateAndStart();
        return;
      }
      nickActive := false;
      emailActive := false;
      return None;
    }
  }
}
