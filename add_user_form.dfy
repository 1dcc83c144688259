/** The add-user form: two fields, checked for blankness on submit; a complete form is
    handed to the `onAddUser` callback as a new user and both fields are cleared. */
module UserForm {
  import opened Seqs
  import opened Text
  import opened Entities

  /** The submit guard: both fields hold something other than whitespace. */
  predicate FormComplete(name: string, email: string) {
    !IsBlank(name) && !IsBlank(email)
  }

  /** The guard in terms of characters: each field has at least one non-whitespace character. */
  lemma FormCompleteIff(name: string, email: string)
    ensures FormComplete(name, email) <==>
            (exists i :: 0 <= i < |name| && !IsJsWhitespace(name[i])) &&
            (exists j :: 0 <= j < |email| && !IsJsWhitespace(email[j]))
  {
    BlankIffAllWhitespace(name);
    BlankIffAllWhitespace(email);
  }

  class AddUserForm {
    var name: string
    var email: string

    constructor ()
      ensures name == "" && email == ""
    {
      name := "";
      email := "";
    }

    /** The name field's `onChange`. */
    method EditName(value: string)
      modifies this`name
      ensures name == value
    {
      name := value;
    }

    /** The email field's `onChange`. */
    method EditEmail(value: string)
      modifies this`email
      ensures email == value
    {
      email := value;
    }

    /** `handleSubmit`: an incomplete form calls nothing and keeps both fields; a complete one
        calls `onAddUser` once (its argument is `added`) with the fields as typed, untrimmed,
        and a supplied fresh id, then clears both fields. */
    method HandleSubmit(freshId: int) returns (added: Option<User>)
      modifies this
      ensures !FormComplete(old(name), old(email)) ==> added == None && name == old(name) && email == old(email)
      ensures FormComplete(old(name), old(email)) ==>
                added == Some(User(freshId, old(name), Some(old(email)))) && name == "" && email == ""
    {
      if IsBlank(name) || IsBlank(email) {
        return None;
      }
      added := Some(User(freshId, name, Some(email)));
      name := "";
      email := "";
    }
  }
}
