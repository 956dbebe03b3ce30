/** The settings form: the new-game fields, the inline editor of one game,
    and the new-manager fields, each checked before its callback runs. */
module SettingsView {
  import opened Common
  import opened SalesTypes
  import opened JsText

  datatype SettingsFormError =
    | FillAllFields     // "Veuillez remplir tous les champs"
    | InvalidPrice      // "Prix invalide"
    | PasswordTooShort  // "Le mot de passe doit contenir au moins 6 caractères"

  /** The arguments of onAddGame and the name and price of onUpdateGame. */
  datatype GameDraft = GameDraft(name: string, defaultPrice: int)

  /** The arguments of onAddGerant. */
  datatype GerantDraft = GerantDraft(username: string, password: string, name: string)

  const MinPasswordLength := 6

  /** The checks shared by handleAddGame and handleSaveEdit: a name that is
      not blank and a filled price field, then a price that parses to a
      positive number. The name passed on is trimmed. */
  function CheckGame(nameText: string, priceText: string): (r: Checked<GameDraft, SettingsFormError>)
    ensures r == Rejected(FillAllFields) <==> Trim(nameText) == "" || priceText == ""
    ensures r == Rejected(InvalidPrice) <==>
              Trim(nameText) != "" && priceText != ""
              && (ParseNumber(priceText).None? || ParseNumber(priceText).value <= 0)
    ensures r.Rejected? ==> r.error != PasswordTooShort
    ensures r.Accepted? ==>
              ParseNumber(priceText).Some? && r.value == GameDraft(Trim(nameText), ParseNumber(priceText).value)
              && r.value.name != "" && r.value.defaultPrice > 0
  {
    if Trim(nameText) == "" || priceText == "" then Rejected(FillAllFields)
    else
      match ParseNumber(priceText)
      case None => Rejected(InvalidPrice)
      case Some(p) => if p <= 0 then Rejected(InvalidPrice) else Accepted(GameDraft(Trim(nameText), p))
  }

  /** handleAddGerant's checks: none of the three fields blank, then at
      least six characters in the password as typed. The values passed on are
      trimmed, so padding can carry a shorter password through. */
  function CheckGerant(username: string, password: string, name: string): (r: Checked<GerantDraft, SettingsFormError>)
    ensures r == Rejected(FillAllFields) <==> Trim(username) == "" || Trim(password) == "" || Trim(name) == ""
    ensures r == Rejected(PasswordTooShort) <==>
              Trim(username) != "" && Trim(password) != "" && Trim(name) != "" && |password| < MinPasswordLength
    ensures r.Rejected? ==> r.error != InvalidPrice
    ensures r.Accepted? ==>
              r.value == GerantDraft(Trim(username), Trim(password), Trim(name))
              && |password| >= MinPasswordLength
              && r.value.username != "" && r.value.password != "" && r.value.name != ""
  {
    if Trim(username) == "" || Trim(password) == "" || Trim(name) == "" then Rejected(FillAllFields)
    else if |password| < MinPasswordLength then Rejected(PasswordTooShort)
    else Accepted(GerantDraft(Trim(username), Trim(password), Trim(name)))
  }

  /** The length check reads the password as typed and the value passed on
      is trimmed, so "  abc " (six characters) is accepted and the account
      gets the three-character password "abc". */
  lemma PaddedPasswordPasses()
    ensures CheckGerant("u", "  abc ", "n") == Accepted(GerantDraft("u", "abc", "n"))
  {
    TrimPadded();
    TrimLetter('u');
    TrimLetter('n');
    assert |"  abc "| == MinPasswordLength;
  }

  lemma TrimPadded()
    ensures Trim("  abc ") == "abc"
  {
    var p := "  abc ";
    assert LeadingBlanks(p, 2) == 0;
    assert LeadingBlanks(p, 0) == 2;
    assert TrailingBlanks(p, 2, 5) == 0;
    assert TrailingBlanks(p, 2, 6) == 1;
  }

  lemma TrimLetter(c: char)
    requires !IsWhitespace(c)
    ensures Trim([c]) == [c]
  {
    assert LeadingBlanks([c], 0) == 0;
  }

  /** Opening the editor on a game with a non-blank name and a positive price
      and saving at once submits the trimmed name and the same price. */
  lemma EditThenSave(game: Game)
    requires Trim(game.name) != "" && game.defaultPrice > 0
    ensures CheckGame(game.name, ShowNumber(game.defaultPrice))
            == Accepted(GameDraft(Trim(game.name), game.defaultPrice))
  {
    ParseShowNumber(game.defaultPrice);
  }

  class SettingsForm {
    var newGameName: string
    var newGamePrice: string
    var editingId: Option<string>
    var editName: string
    var editPrice: string
    var newGerantUsername: string
    var newGerantPassword: string
    var newGerantName: string

    constructor ()
      ensures newGameName == "" && newGamePrice == ""
      ensures editingId == None && editName == "" && editPrice == ""
      ensures newGerantUsername == "" && newGerantPassword == "" && newGerantName == ""
    {
      newGameName, newGamePrice := "", "";
      editingId, editName, editPrice := None, "", "";
      newGerantUsername, newGerantPassword, newGerantName := "", "", "";
    }

    /** handleAddGame: on accepted fields onAddGame gets the draft and both
        fields are cleared; on refused fields nothing is called or changed. */
    method HandleAddGame() returns (call: Option<GameDraft>, error: Option<SettingsFormError>)
      modifies this`newGameName, this`newGamePrice
      ensures var c := CheckGame(old(newGameName), old(newGamePrice));
              (c.Accepted? ==> call == Some(c.value) && error == None && newGameName == "" && newGamePrice == "")
              && (c.Rejected? ==> call == None && error == Some(c.error)
                                  && newGameName == old(newGameName) && newGamePrice == old(newGamePrice))
    {
      var c := CheckGame(newGameName, newGamePrice);
      if c.Rejected? {
        return None, Some(c.error);
      }
      call, error := Some(c.value), None;
      newGameName, newGamePrice := "", "";
    }

    /** handleStartEdit: the editor opens on that game with its name and
        price copied into the fields. */
    method HandleStartEdit(game: Game)
      modifies this`editingId, this`editName, this`editPrice
      ensures editingId == Some(game.id)
      ensures editName == game.name && editPrice == ShowNumber(game.defaultPrice)
    {
      editingId := Some(game.id);
      editName := game.name;
      editPrice := ShowNumber(game.defaultPrice);
    }

    /** handleSaveEdit: on accepted fields onUpdateGame gets the id and the
        draft and the editor closes; on refused fields it stays open. The edit
        fields are left as they are either way. */
    method HandleSaveEdit(id: string) returns (call: Option<(string, GameDraft)>, error: Option<SettingsFormError>)
      modifies this`editingId
      ensures var c := CheckGame(editName, editPrice);
              (c.Accepted? ==> call == Some((id, c.value)) && error == None && editingId == None)
              && (c.Rejected? ==> call == None && error == Some(c.error) && editingId == old(editingId))
    {
      var c := CheckGame(editName, editPrice);
      if c.Rejected? {
        return None, Some(c.error);
      }
      call, error := Some((id, c.value)), None;
      editingId := None;
    }

    /** The cancel button of the editor. */
    method HandleCancelEdit()
      modifies this`editingId
      ensures editingId == None
    {
      editingId := None;
    }

    /** handleAddGerant: on accepted fields onAddGerant gets the trimmed
        values and the three fields are cleared; on refused fields nothing is
        called or changed. */
    method HandleAddGerant() returns (call: Option<GerantDraft>, error: Option<SettingsFormError>)
      modifies this`newGerantUsername, this`newGerantPassword, this`newGerantName
      ensures var c := CheckGerant(old(newGerantUsername), old(newGerantPassword), old(newGerantName));
              (c.Accepted? ==> call == Some(c.value) && error == None
                               && newGerantUsername == "" && newGerantPassword == "" && newGerantName == "")
              && (c.Rejected? ==> call == None && error == Some(c.error)
                                  && newGerantUsername == old(newGerantUsername)
                                  && newGerantPassword == old(newGerantPassword)
                                  && newGerantName == old(newGerantName))
    {
      var c := CheckGerant(newGerantUsername, newGerantPassword, newGerantName);
      if c.Rejected? {
        return None, Some(c.error);
      }
      call, error := Some(c.value), None;
      newGerantUsername, newGerantPassword, newGerantName := "", "", "";
    }
  }
}
