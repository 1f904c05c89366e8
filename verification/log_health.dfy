/** The "log health" page: the symptom checklist, the checks and payload
    shaping done before a health entry is posted, and the save button. */
module LogHealth {
  import opened Js

  // ---------------------------------------------------------------------------
  // The symptom list
  // ---------------------------------------------------------------------------

  /** `xs.filter(x => x !== s)` */
  function RemoveAll(xs: seq<string>, s: string): (r: seq<string>)
    ensures s !in r
    ensures forall t :: t != s ==> (t in r <==> t in xs)
    ensures |r| <= |xs|
  {
    if xs == [] then [] else (if xs[0] == s then [] else [xs[0]]) + RemoveAll(xs[1..], s)
  }

  /** `toggleSymptom`: remove the symptom when it is listed, otherwise append it. */
  function Toggle(xs: seq<string>, s: string): (r: seq<string>)
    ensures s in r <==> s !in xs
    ensures forall t :: t != s ==> (t in r <==> t in xs)
  {
    if s in xs then RemoveAll(xs, s) else xs + [s]
  }

  /** No symptom is listed twice. */
  predicate NoDuplicates(xs: seq<string>) {
    forall i, j :: 0 <= i < j < |xs| ==> xs[i] != xs[j]
  }

  /** Filtering distributes over concatenation. */
  lemma {:induction false} RemoveAllAppend(a: seq<string>, b: seq<string>, s: string)
    ensures RemoveAll(a + b, s) == RemoveAll(a, s) + RemoveAll(b, s)
  {
    if a == [] {
      assert a + b == b;
    } else {
      var head := if a[0] == s then [] else [a[0]];
      assert (a + b)[0] == a[0] && (a + b)[1..] == a[1..] + b;
      assert RemoveAll(a + b, s) == head + RemoveAll(a[1..] + b, s);
      RemoveAllAppend(a[1..], b, s);
      assert RemoveAll(a, s) == head + RemoveAll(a[1..], s);
    }
  }

  /** Filtering out a value that is not there changes nothing. */
  lemma {:induction false} RemoveAllAbsent(xs: seq<string>, s: string)
    requires s !in xs
    ensures RemoveAll(xs, s) == xs
  {
    if xs != [] {
      RemoveAllAbsent(xs[1..], s);
    }
  }

  /** Filtering keeps a list free of duplicates. */
  lemma {:induction false} RemoveAllKeepsNoDuplicates(xs: seq<string>, s: string)
    requires NoDuplicates(xs)
    ensures NoDuplicates(RemoveAll(xs, s))
  {
    if xs != [] {
      var tail := xs[1..];
      assert NoDuplicates(tail) by {
        forall i, j | 0 <= i < j < |tail| ensures tail[i] != tail[j] {
          assert tail[i] == xs[i + 1] && tail[j] == xs[j + 1];
        }
      }
      RemoveAllKeepsNoDuplicates(tail, s);
      assert xs[0] !in tail by {
        forall j | 0 <= j < |tail| ensures tail[j] != xs[0] {
          assert tail[j] == xs[j + 1];
        }
      }
      var r := RemoveAll(xs, s);
      var head := if xs[0] == s then [] else [xs[0]];
      var rest := RemoveAll(tail, s);
      assert r == head + rest;
      forall i, j | 0 <= i < j < |r| ensures r[i] != r[j] {
        if head != [] && i == 0 {
          assert r[j] == rest[j - 1] && rest[j - 1] in rest;
        } else {
          assert r[i] == rest[i - |head|] && r[j] == rest[j - |head|];
        }
      }
    }
  }

  /** Apart from the toggled symptom, the list keeps its members in the same
      relative order: filtering the toggled symptom out of the list before
      and after gives the same list. */
  lemma ToggleKeepsOthersInOrder(xs: seq<string>, s: string)
    ensures RemoveAll(Toggle(xs, s), s) == RemoveAll(xs, s)
  {
    if s !in xs {
      RemoveAllAppend(xs, [s], s);
      assert RemoveAll([s], s) == [];
    } else {
      RemoveAllAbsent(RemoveAll(xs, s), s);
    }
  }

  /** Toggling keeps the list free of duplicates. */
  lemma ToggleKeepsNoDuplicates(xs: seq<string>, s: string)
    requires NoDuplicates(xs)
    ensures NoDuplicates(Toggle(xs, s))
  {
    if s in xs {
      RemoveAllKeepsNoDuplicates(xs, s);
    }
  }

  /** Toggling an unlisted symptom twice gives back the original list. */
  lemma ToggleTwiceAbsent(xs: seq<string>, s: string)
    requires s !in xs
    ensures Toggle(Toggle(xs, s), s) == xs
  {
    RemoveAllAppend(xs, [s], s);
    RemoveAllAbsent(xs, s);
    assert RemoveAll([s], s) == [];
  }

  /** Toggling a listed symptom twice moves it to the end of the list. */
  lemma ToggleTwicePresent(xs: seq<string>, s: string)
    requires s in xs
    ensures Toggle(Toggle(xs, s), s) == RemoveAll(xs, s) + [s]
  {
  }

  // ---------------------------------------------------------------------------
  // Trimming the notes
  // ---------------------------------------------------------------------------

  /** The characters `String.prototype.trim` removes: the white-space and
      line-terminator characters of ECMAScript (section 12.2 and 12.3 of
      ECMA-262), the space separators included. */
  predicate IsTrimmed(c: char) {
    || c == '\t' || c == '\n' || c == '\U{000B}' || c == '\U{000C}' || c == '\r' || c == ' '
    || c == '\U{00A0}' || c == '\U{1680}' || ('\U{2000}' <= c <= '\U{200A}')
    || c == '\U{2028}' || c == '\U{2029}' || c == '\U{202F}' || c == '\U{205F}'
    || c == '\U{3000}' || c == '\U{FEFF}'
  }

  /** Every character is one `trim` removes. */
  predicate Blank(s: string) {
    forall k :: 0 <= k < |s| ==> IsTrimmed(s[k])
  }

  /** Where the kept text starts: the first index from `i` on that holds a
      character `trim` keeps, or `|s|`. */
  function StartIndex(s: string, i: nat): (j: nat)
    requires i <= |s|
    ensures i <= j <= |s|
    decreases |s| - i
  {
    if i == |s| || !IsTrimmed(s[i]) then i else StartIndex(s, i + 1)
  }

  /** Where the kept text ends: scanning down from `j` to `lo`, the index
      just past the last character `trim` keeps, or `lo`. */
  function EndIndex(s: string, lo: nat, j: nat): (k: nat)
    requires lo <= j <= |s|
    ensures lo <= k <= j
    decreases j
  {
    if j == lo || !IsTrimmed(s[j - 1]) then j else EndIndex(s, lo, j - 1)
  }

  /** `s.trim()` */
  function Trim(s: string): (r: string)
    ensures |r| <= |s|
  {
    var i := StartIndex(s, 0);
    s[i..EndIndex(s, i, |s|)]
  }

  /** The scan from the start skips only white space and stops at a kept
      character or at the end. */
  lemma {:induction false} StartIndexSkipsBlanks(s: string, i: nat)
    requires i <= |s|
    ensures forall k :: i <= k < StartIndex(s, i) ==> IsTrimmed(s[k])
    ensures StartIndex(s, i) == |s| || !IsTrimmed(s[StartIndex(s, i)])
    decreases |s| - i
  {
    if i < |s| && IsTrimmed(s[i]) {
      StartIndexSkipsBlanks(s, i + 1);
    }
  }

  /** The scan from the end skips only white space and stops after a kept
      character or at `lo`. */
  lemma {:induction false} EndIndexSkipsBlanks(s: string, lo: nat, j: nat)
    requires lo <= j <= |s|
    ensures forall k :: EndIndex(s, lo, j) <= k < j ==> IsTrimmed(s[k])
    ensures EndIndex(s, lo, j) == lo || !IsTrimmed(s[EndIndex(s, lo, j) - 1])
    decreases j
  {
    if j > lo && IsTrimmed(s[j - 1]) {
      EndIndexSkipsBlanks(s, lo, j - 1);
    }
  }

  /** Trimming removes white space only: `s` is a blank prefix, the trimmed
      text and a blank suffix. */
  lemma TrimDropsOnlyBlanks(s: string)
    ensures exists i, k :: 0 <= i <= k <= |s| && Trim(s) == s[i..k] && Blank(s[..i]) && Blank(s[k..])
  {
    var i := StartIndex(s, 0);
    var k := EndIndex(s, i, |s|);
    StartIndexSkipsBlanks(s, 0);
    EndIndexSkipsBlanks(s, i, |s|);
    assert Blank(s[..i]) by {
      forall m | 0 <= m < i ensures IsTrimmed(s[..i][m]) {
        assert s[..i][m] == s[m];
      }
    }
    assert Blank(s[k..]) by {
      forall m | 0 <= m < |s| - k ensures IsTrimmed(s[k..][m]) {
        assert s[k..][m] == s[k + m];
      }
    }
  }

  /** The trimmed text, unless empty, starts and ends with a character
      `trim` keeps. */
  lemma TrimKeepsEnds(s: string)
    ensures var r := Trim(s);
      r != "" ==> !IsTrimmed(r[0]) && !IsTrimmed(r[|r| - 1])
  {
    var i := StartIndex(s, 0);
    var k := EndIndex(s, i, |s|);
    StartIndexSkipsBlanks(s, 0);
    EndIndexSkipsBlanks(s, i, |s|);
    var r := s[i..k];
    if r != "" {
      assert r[0] == s[i] && r[|r| - 1] == s[k - 1];
    }
  }

  /** Trimming leaves nothing exactly when the text is blank. */
  lemma TrimEmptyIffBlank(s: string)
    ensures Trim(s) == "" <==> Blank(s)
  {
    var i := StartIndex(s, 0);
    var k := EndIndex(s, i, |s|);
    StartIndexSkipsBlanks(s, 0);
    EndIndexSkipsBlanks(s, i, |s|);
    if Trim(s) == "" {
      assert k == i;
    }
  }

  // ---------------------------------------------------------------------------
  // Saving an entry
  // ---------------------------------------------------------------------------

  datatype Result<+T, +E> = Ok(value: T) | Err(error: E)

  /** Why a save is refused before anything is sent. */
  datatype SaveError = NotSignedIn | InvalidGlucose

  /** The description of the toast a refused save shows. */
  function ErrorMessage(e: SaveError): (message: string)
    ensures message != ""
    ensures e.NotSignedIn? <==> message == "Please sign in to save health data"
    ensures e.InvalidGlucose? <==> message == "Please enter a valid glucose value"
  {
    match e
    case NotSignedIn => "Please sign in to save health data"
    case InvalidGlucose => "Please enter a valid glucose value"
  }

  /** The body posted to the health-entries endpoint; `symptoms` is left out
      when None, `notes` is sent as null when None. */
  datatype Payload = Payload(
    userId: string,
    glucose: real,
    symptomSeverity: int,
    symptoms: Option<seq<string>>,
    notes: Option<string>)

  /** The checks `handleSave` makes and the payload it builds. `user` is the
      signed-in user's id, if any; `glucoseNumber` is `Number(glucose)`,
      None when that is NaN. */
  function SaveRequest(user: Option<string>, glucose: string, glucoseNumber: Option<real>,
                       severity: int, symptoms: seq<string>, notes: string)
    : (r: Result<Payload, SaveError>)
    ensures user.None? ==> r == Err(NotSignedIn)
    ensures user.Some? && (glucose == "" || glucoseNumber.None?) ==> r == Err(InvalidGlucose)
    ensures r.Ok? <==> user.Some? && glucose != "" && glucoseNumber.Some?
    ensures r.Ok? ==> r.value == BuildPayload(user.value, glucoseNumber.value, severity, symptoms, notes)
  {
    if user.None? then Err(NotSignedIn)
    else if glucose == "" || glucoseNumber.None? then Err(InvalidGlucose)
    else Ok(BuildPayload(user.value, glucoseNumber.value, severity, symptoms, notes))
  }

  /** The body built once the checks pass: empty symptom lists are left out
      and blank notes sent as null. */
  function BuildPayload(userId: string, glucose: real, severity: int, symptoms: seq<string>, notes: string)
    : (p: Payload)
    ensures p.userId == userId && p.glucose == glucose && p.symptomSeverity == severity
    ensures p.symptoms.None? <==> symptoms == []
    ensures p.symptoms.Some? ==> p.symptoms.value == symptoms
    ensures p.notes.None? <==> Trim(notes) == ""
    ensures p.notes.Some? ==> p.notes.value == Trim(notes) && p.notes.value != ""
  {
    var trimmed := Trim(notes);
    Payload(
      userId := userId,
      glucose := glucose,
      symptomSeverity := severity,
      symptoms := if |symptoms| > 0 then Some(symptoms) else None,
      notes := if trimmed != "" then Some(trimmed) else None)
  }

  /** Notes of white space only are sent as null, and any other notes as
      their trimmed text. */
  lemma BlankNotesAreSentAsNull(userId: string, glucose: real, severity: int, symptoms: seq<string>, notes: string)
    ensures BuildPayload(userId, glucose, severity, symptoms, notes).notes.None? <==> Blank(notes)
  {
    TrimEmptyIffBlank(notes);
  }

  /** `disabled={isLoading || !glucose}`, negated. */
  function SaveButtonEnabled(isLoading: bool, glucose: string): (enabled: bool)
    ensures enabled <==> !isLoading && glucose != ""
  {
    !(isLoading || glucose == "")
  }

  /** A save started from the enabled button is only refused for a missing
      user or a glucose text that is not a number. */
  lemma EnabledSaveRefusals(isLoading: bool, user: Option<string>, glucose: string,
                            glucoseNumber: Option<real>, severity: int, symptoms: seq<string>, notes: string)
    requires SaveButtonEnabled(isLoading, glucose)
    ensures SaveRequest(user, glucose, glucoseNumber, severity, symptoms, notes).Err?
        <==> user.None? || glucoseNumber.None?
  {
  }

  /** The check tests the text for emptiness and the number for NaN only: a
      glucose text of spaces, which `Number` reads as 0, passes both and is
      sent as a reading of 0. The page's number input sanitizes its value to
      "" or a valid number, so this text reaches `handleSave` only from
      another caller; the lemma records what the checks themselves admit. */
  lemma BlankGlucoseTextIsSentAsZero(userId: string, severity: int, symptoms: seq<string>, notes: string)
    ensures SaveRequest(Some(userId), "  ", Some(0.0), severity, symptoms, notes).Ok?
    ensures SaveRequest(Some(userId), "  ", Some(0.0), severity, symptoms, notes).value.glucose == 0.0
  {
  }

  /** How the POST request ends: accepted, refused with an optional `error`
      field in the answer, or failed with an exception message. */
  datatype PostResult = Accepted | Refused(error: Option<string>) | Thrown(message: string)

  /** The description of the toast a failed POST shows. */
  function PostFailureMessage(post: PostResult): (message: string)
    requires !post.Accepted?
    ensures message != "" || post.Thrown?
    ensures post.Refused? && StrTruthy(post.error) ==> message == post.error.value
    ensures post.Refused? && !StrTruthy(post.error) ==> message == "Failed to save health entry"
    ensures post.Thrown? ==> message == post.message
  {
    match post
    case Refused(e) => StrOr(e, "Failed to save health entry")
    case Thrown(m) => m
  }

  /** What a press of the save button does. */
  datatype SaveOutcome =
    | Rejected(error: SaveError, message: string) // a toast, no request
    | Saved(sent: Payload)                        // request sent and accepted
    | SaveFailed(sent: Payload, message: string) // request sent, then an error toast

  /** The page's form state. */
  class LogHealthForm {
    var glucose: string
    var severity: int
    var symptoms: seq<string>
    var notes: string
    var isLoading: bool
    var showSuccess: bool

    constructor ()
      ensures glucose == "" && severity == 5 && symptoms == [] && notes == ""
      ensures !isLoading && !showSuccess
    {
      glucose, severity, symptoms, notes := "", 5, [], "";
      isLoading, showSuccess := false, false;
    }

    /** A checkbox click: `setSymptoms(prev => toggle)`. */
    method ToggleSymptom(s: string)
      modifies this`symptoms
      ensures symptoms == Toggle(old(symptoms), s)
      ensures NoDuplicates(old(symptoms)) ==> NoDuplicates(symptoms)
    {
      if NoDuplicates(symptoms) {
        ToggleKeepsNoDuplicates(symptoms, s);
      }
      symptoms := if s in symptoms then RemoveAll(symptoms, s) else symptoms + [s];
    }

    /** `handleSave`, with the POST's result given. A refused save changes no
        state; a sent one ends with `isLoading` false, and with `showSuccess`
        set when the server accepted it. */
    method HandleSave(user: Option<string>, glucoseNumber: Option<real>, post: PostResult)
      returns (outcome: SaveOutcome)
      modifies this`isLoading, this`showSuccess
      ensures var request := SaveRequest(user, old(glucose), glucoseNumber, old(severity), old(symptoms), old(notes));
        && (request.Err? ==> outcome == Rejected(request.error, ErrorMessage(request.error))
                             && isLoading == old(isLoading) && showSuccess == old(showSuccess))
        && (request.Ok? && post.Accepted? ==> outcome == Saved(request.value) && !isLoading && showSuccess)
        && (request.Ok? && !post.Accepted? ==> outcome == SaveFailed(request.value, PostFailureMessage(post))
                                               && !isLoading && showSuccess == old(showSuccess))
    {
      // The handler works on the values of the render it was created in.
      var glucose, severity, symptoms, notes := glucose, severity, symptoms, notes;
      if user.None? {
        return Rejected(NotSignedIn, ErrorMessage(NotSignedIn));
      }
      if glucose == "" || glucoseNumber.None? {
        return Rejected(InvalidGlucose, ErrorMessage(InvalidGlucose));
      }
      isLoading := true;
      var payload := BuildPayload(user.value, glucoseNumber.value, severity, symptoms, notes);
      match post {
        case Accepted =>
          isLoading := false;
          showSuccess := true;
          outcome := Saved(payload);
        case Refused(_) =>
          isLoading := false;
          outcome := SaveFailed(payload, PostFailureMessage(post));
        case Thrown(_) =>
          isLoading := false;
          outcome := SaveFailed(payload, PostFailureMessage(post));
      }
    }
  }
}
