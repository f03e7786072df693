/**
 * The create/edit mode of the three record forms. Opening a form's modal
 * with a record selects "edit", opening it empty selects "create", and the
 * submit handler turns the mode into the backend action it sends.
 */
module Forms {
  import opened Wrappers
  import opened JsString
  import opened Roles

  datatype Mode = Create | Edit

  datatype Form = A1 | A2 | Berita

  /** The record type a form's actions name. */
  function FormName(form: Form): string {
    match form
    case A1 => "A1"
    case A2 => "A2"
    case Berita => "BERITA"
  }

  /** The action the submit handler of `form` sends in `mode`:
      CREATE_A1 / UPDATE_A1, CREATE_A2 / UPDATE_A2, CREATE_BERITA / UPDATE_BERITA. */
  function SubmitAction(form: Form, mode: Mode): (action: string)
    ensures StartsWith(action, "CREATE_") <==> mode == Create
    ensures StartsWith(action, "UPDATE_") <==> mode == Edit
  {
    var prefix := if mode == Create then "CREATE_" else "UPDATE_";
    var action := prefix + FormName(form);
    ActionPrefix(mode, prefix, FormName(form));
    action
  }

  /** The first seven characters of an action name tell CREATE_ from
      UPDATE_ apart. */
  lemma ActionPrefix(mode: Mode, prefix: string, name: string)
    requires prefix == if mode == Create then "CREATE_" else "UPDATE_"
    ensures StartsWith(prefix + name, "CREATE_") <==> mode == Create
    ensures StartsWith(prefix + name, "UPDATE_") <==> mode == Edit
  {
    var action := prefix + name;
    assert action[..7] == prefix;
    if mode == Create {
      assert action[0] == 'C';
    } else {
      assert action[0] == 'U';
    }
  }

  /** No two (form, mode) pairs send the same action. */
  lemma SubmitActionInjective(f: Form, m: Mode, g: Form, n: Mode)
    requires SubmitAction(f, m) == SubmitAction(g, n)
    ensures f == g && m == n
  {
    assert SubmitAction(f, m)[7..] == SubmitAction(g, n)[7..];
  }

  const EditOwnArticlesOnly := "Anda hanya bisa mengedit berita yang Anda tulis."

  /** The three mode variables of the page. */
  class FormModes {
    var a1Mode: Mode
    var a2Mode: Mode
    var beritaMode: Mode

    /** All three forms start in "create" mode. */
    constructor ()
      ensures a1Mode == Create && a2Mode == Create && beritaMode == Create
    {
      a1Mode, a2Mode, beritaMode := Create, Create, Create;
    }

    /** Form A1's modal, opened with a record (`editing`) or empty. It does
        not look at the session. */
    method OpenA1Modal(editing: bool)
      modifies this`a1Mode
      ensures a1Mode == (if editing then Edit else Create)
      ensures SubmitAction(A1, a1Mode) == if editing then "UPDATE_A1" else "CREATE_A1"
    {
      if editing {
        a1Mode := Edit;
      } else {
        a1Mode := Create;
      }
    }

    /** Form A2's modal: without a session it returns before touching the
        mode. */
    method OpenA2Modal(hasSession: bool, editing: bool)
      modifies this`a2Mode
      ensures !hasSession ==> a2Mode == old(a2Mode)
      ensures hasSession ==> a2Mode == (if editing then Edit else Create)
      ensures hasSession ==> SubmitAction(A2, a2Mode) == if editing then "UPDATE_A2" else "CREATE_A2"
    {
      if !hasSession {
        return;
      }
      if editing {
        a2Mode := Edit;
      } else {
        a2Mode := Create;
      }
    }

    /** The news modal, opened with the author of an existing article or
        empty. A media administrator who did not write the article gets an
        error notice and the modal stays closed, with the mode left as it
        was. `shown` says whether the modal is displayed. */
    method OpenBeritaModal(user: Option<User>, author: Option<string>)
      returns (shown: bool, notice: Option<string>)
      modifies this`beritaMode
      ensures user.None? ==> !shown && notice == None && beritaMode == old(beritaMode)
      ensures user.Some? && author.Some? && BeritaEditRefused(user.value.tipeUser, author.value, user.value.username)
              ==> !shown && notice == Some(EditOwnArticlesOnly) && beritaMode == old(beritaMode)
      ensures shown <==> user.Some? && !(author.Some? && BeritaEditRefused(user.value.tipeUser, author.value, user.value.username))
      ensures shown ==> notice == None && beritaMode == (if author.Some? then Edit else Create)
    {
      if user.None? {
        return false, None;
      }
      if author.Some? {
        if BeritaEditRefused(user.value.tipeUser, author.value, user.value.username) {
          return false, Some(EditOwnArticlesOnly);
        }
        beritaMode := Edit;
      } else {
        beritaMode := Create;
      }
      shown, notice := true, None;
    }
  }
}
