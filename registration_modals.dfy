/**
 * The two form modals: registering (or updating) a loner, and creating a
 * space. Each validates a name with the same ordered checks (blank, too
 * short, the name pattern) and assembles the multipart form it submits.
 *
 * The length limits come from a constants file that is not part of this
 * model, so they are parameters; so are the browser's online status, the
 * session's user id, the file-type-to-extension table and the outcome of
 * image compression and avatar generation. The form is the sequence of
 * (key, value) pairs appended to the FormData, in order.
 */
module RegistrationModals {
  import opened Nullable
  import opened JsText

  // ---- the name pattern /^[a-zA-Z][a-zA-Z0-9_-]+$/ ----

  predicate IsAsciiLetter(c: char) {
    'a' <= c <= 'z' || 'A' <= c <= 'Z'
  }

  predicate IsNameChar(c: char) {
    IsAsciiLetter(c) || '0' <= c <= '9' || c == '_' || c == '-'
  }

  /** The strings the pattern accepts: an ASCII letter followed by one or
      more letters, digits, `_` or `-`, and nothing else. */
  predicate MatchesNamePattern(s: string) {
    |s| >= 2 && IsAsciiLetter(s[0]) && forall i :: 1 <= i < |s| ==> IsNameChar(s[i])
  }

  /** The pattern as the automaton a regular-expression engine runs: the
      state after the characters read so far. */
  datatype MatchState = Start | AfterLetter | Accepting | Failed

  function Step(q: MatchState, c: char): MatchState {
    match q
    case Start => if IsAsciiLetter(c) then AfterLetter else Failed
    case AfterLetter => if IsNameChar(c) then Accepting else Failed
    case Accepting => if IsNameChar(c) then Accepting else Failed
    case Failed => Failed
  }

  function Run(q: MatchState, s: string): MatchState
    decreases |s|
  {
    if s == [] then q else Run(Step(q, s[0]), s[1..])
  }

  predicate AllNameChars(s: string) {
    forall i :: 0 <= i < |s| ==> IsNameChar(s[i])
  }

  lemma {:induction false} RunFromAccepting(s: string)
    ensures Run(Accepting, s) == Accepting <==> AllNameChars(s)
    ensures Run(Failed, s) == Failed
    decreases |s|
  {
    if s != [] {
      RunFromAccepting(s[1..]);
      assert forall i :: 1 <= i < |s| ==> s[i] == s[1..][i - 1];
    }
  }

  /** The automaton accepts exactly the strings of the pattern. */
  lemma NamePatternAutomaton(s: string)
    ensures Run(Start, s) == Accepting <==> MatchesNamePattern(s)
  {
    if |s| >= 2 {
      RunFromAccepting(s[2..]);
      assert forall i :: 2 <= i < |s| ==> s[i] == s[2..][i - 2];
      if !IsAsciiLetter(s[0]) || !IsNameChar(s[1]) {
        RunFromAccepting(s[2..]);
      }
    }
  }

  /** A name the pattern accepts is at least two characters long, starts with
      a letter, and contains no whitespace, so trimming leaves it as it is;
      surrounding spaces make the pattern fail. */
  lemma AcceptedNameShape(s: string)
    requires MatchesNamePattern(s)
    ensures |s| >= 2 && IsAsciiLetter(s[0])
    ensures Unpadded(s) && Trim(s) == s
    ensures Utf16Length(s) == |s|
  {
    assert IsNameChar(s[|s| - 1]);
    TrimUnpadded(s);
    Utf16LengthBounds(s);
  }

  // ---- ordered validation ----

  datatype NameError = Blank | TooShort | BadPattern

  /** The checks of `handleSubmit` in order; `None` means all pass. The
      length is `.length`, in UTF-16 code units. */
  function ValidateName(name: string, minLength: int): Option<NameError> {
    if Trim(name) == [] then Some(Blank)
    else if Utf16Length(Trim(name)) < minLength then Some(TooShort)
    else if !MatchesNamePattern(name) then Some(BadPattern)
    else None
  }

  /** The first failing check decides the error; a name passes exactly when
      the pattern accepts it as typed and it is long enough. */
  lemma ValidateNameCases(name: string, minLength: int)
    ensures ValidateName(name, minLength) == Some(Blank) <==> AllWhitespace(name)
    ensures ValidateName(name, minLength) == Some(TooShort) <==>
              !AllWhitespace(name) && Utf16Length(Trim(name)) < minLength
    ensures ValidateName(name, minLength) == Some(BadPattern) <==>
              !AllWhitespace(name) && Utf16Length(Trim(name)) >= minLength && !MatchesNamePattern(name)
    ensures ValidateName(name, minLength) == None <==>
              MatchesNamePattern(name) && |name| >= minLength
  {
    TrimEmptyIffAllWhitespace(name);
    if MatchesNamePattern(name) {
      AcceptedNameShape(name);
    }
  }

  /** A name with whitespace at either end is never accepted, even when its
      trimmed form would be. */
  lemma PaddedNameRejected(name: string, minLength: int)
    requires !Unpadded(name)
    ensures ValidateName(name, minLength).Some?
  {
    if MatchesNamePattern(name) {
      AcceptedNameShape(name);
    }
  }

  const PatternMessage := "Must begin with alphabet and must contain only alpha numeric values"
  const OfflineMessage := "You are not connected"
  const AvatarFailedMessage := "something went wrong you can't change the avatar now, you may change it later"
  const PreparingImageNotice := "Preparing your image."

  function RegistrationMessage(e: NameError): string {
    match e
    case Blank => "Quick give yourself a name"
    case TooShort => "name too short"
    case BadPattern => PatternMessage
  }

  function SpaceMessage(e: NameError): string {
    match e
    case Blank => "Enter a space name"
    case TooShort => "name too short"
    case BadPattern => PatternMessage
  }

  // ---- forms ----

  /** A browser file or blob, kept opaque apart from its MIME type. */
  datatype Blob = Blob(handle: nat, mimeType: string)

  /** A file slot of a form: `""` until a file is chosen. */
  datatype Upload = NoFile | File(blob: Blob)

  /** An image with the object URL it is displayed from. */
  datatype Picture = Picture(file: Upload, url: string)

  datatype FormValue = Text(text: string) | FilePart(file: Upload, filename: Option<string>)

  /** The form fields the modals append. */
  datatype FieldKey = NameField | AvatarField | TagLineField | IconField | AboutField

  /** The key each field is sent under. */
  function KeyName(k: FieldKey): string {
    match k
    case NameField => "name"
    case AvatarField => "avatar"
    case TagLineField => "tag_line"
    case IconField => "icon"
    case AboutField => "about"
  }

  type Form = seq<(FieldKey, FormValue)>

  predicate DistinctKeys(f: Form) {
    forall i, j :: 0 <= i < j < |f| ==> f[i].0 != f[j].0
  }

  /** The value stored under `key`, if any. */
  function Lookup(f: Form, key: FieldKey): Option<FormValue> {
    if f == [] then None
    else if f[0].0 == key then Some(f[0].1)
    else Lookup(f[1..], key)
  }

  /** `form_data.append(key, value)` when `cond` holds. */
  function AppendIf(f: Form, cond: bool, key: FieldKey, value: FormValue): Form {
    if cond then f + [(key, value)] else f
  }

  /** Looking a key up after a conditional append. */
  lemma {:induction false} LookupAppendIf(f: Form, cond: bool, key: FieldKey, value: FormValue, k: FieldKey)
    ensures Lookup(AppendIf(f, cond, key, value), k) ==
              if Lookup(f, k).Some? then Lookup(f, k)
              else if cond && k == key then Some(value) else None
    decreases |f|
  {
    if cond && f != [] {
      assert (f + [(key, value)])[1..] == f[1..] + [(key, value)];
      LookupAppendIf(f[1..], cond, key, value, k);
    }
  }

  /** A key that `Lookup` does not find is on no entry. */
  lemma {:induction false} LookupNoneAbsent(f: Form, key: FieldKey)
    requires Lookup(f, key) == None
    ensures forall i :: 0 <= i < |f| ==> f[i].0 != key
    decreases |f|
  {
    if f != [] {
      LookupNoneAbsent(f[1..], key);
      assert forall i :: 1 <= i < |f| ==> f[i] == f[1..][i - 1];
    }
  }

  /** Appending a key not yet present keeps the keys distinct, stores the
      value under that key, and leaves every other key as it was. */
  lemma AppendIfFresh(f: Form, cond: bool, key: FieldKey, value: FormValue)
    requires DistinctKeys(f) && Lookup(f, key) == None
    ensures DistinctKeys(AppendIf(f, cond, key, value))
    ensures Lookup(AppendIf(f, cond, key, value), key) == if cond then Some(value) else None
    ensures forall k :: k != key ==> Lookup(AppendIf(f, cond, key, value), k) == Lookup(f, k)
  {
    LookupNoneAbsent(f, key);
    forall k | k != key
      ensures Lookup(AppendIf(f, cond, key, value), k) == Lookup(f, k)
    {
      LookupAppendIf(f, cond, key, value, k);
    }
    LookupAppendIf(f, cond, key, value, key);
  }

  /** `loner-<name>.<extension>`, where a MIME type missing from the table
      renders as `undefined`. */
  function AvatarFilename(name: string, file: Upload, extensions: map<string, string>): string {
    var ext := if file.File? && file.blob.mimeType in extensions
               then extensions[file.blob.mimeType] else "undefined";
    "loner-" + name + "." + ext
  }

  /** The fields a registration or update sends. */
  function RegistrationForm(update: bool, name: string, userAvatar: string, avatar: Picture,
                            tagline: string, tagLine: string,
                            extensions: map<string, string>): Form
  {
    var f0 := AppendIf([], !update, NameField, Text(name));
    var f1 := AppendIf(f0, userAvatar != avatar.url, AvatarField,
                       FilePart(avatar.file, Some(AvatarFilename(name, avatar.file, extensions))));
    AppendIf(f1, tagLine != tagline, TagLineField, Text(Trim(tagLine)))
  }

  /** `name` is sent only on registration, `avatar` only when the avatar
      changed, and `tag_line`, trimmed, only when the tag line changed; no
      key is sent twice. */
  lemma RegistrationFormFields(update: bool, name: string, userAvatar: string, avatar: Picture,
                               tagline: string, tagLine: string, extensions: map<string, string>)
    ensures var f := RegistrationForm(update, name, userAvatar, avatar, tagline, tagLine, extensions);
      && DistinctKeys(f)
      && Lookup(f, NameField) == (if update then None else Some(Text(name)))
      && Lookup(f, AvatarField) ==
           (if userAvatar == avatar.url then None
            else Some(FilePart(avatar.file, Some(AvatarFilename(name, avatar.file, extensions)))))
      && Lookup(f, TagLineField) == (if tagLine == tagline then None else Some(Text(Trim(tagLine))))
      && Lookup(f, IconField) == None && Lookup(f, AboutField) == None
  {
    var f0 := AppendIf([], !update, NameField, Text(name));
    var avatarPart := FilePart(avatar.file, Some(AvatarFilename(name, avatar.file, extensions)));
    var f1 := AppendIf(f0, userAvatar != avatar.url, AvatarField, avatarPart);
    AppendIfFresh([], !update, NameField, Text(name));
    AppendIfFresh(f0, userAvatar != avatar.url, AvatarField, avatarPart);
    AppendIfFresh(f1, tagLine != tagline, TagLineField, Text(Trim(tagLine)));
  }

  /** The fields a space creation sends. */
  function SpaceForm(name: string, icon: Picture, tagLine: string, about: string): Form {
    var f0 := [(NameField, Text(name))];
    var f1 := AppendIf(f0, icon.file.File?, IconField, FilePart(icon.file, None));
    var f2 := AppendIf(f1, tagLine != "", TagLineField, Text(tagLine));
    AppendIf(f2, about != "", AboutField, Text(about))
  }

  /** Looking a key up in a one-entry form. */
  lemma LookupSingle(key: FieldKey, value: FormValue, k: FieldKey)
    ensures Lookup([(key, value)], k) == if k == key then Some(value) else None
  {
    assert [(key, value)][1..] == [];
  }

  /** The space form always starts with the name; it carries the icon only
      when one is chosen and the tag line and the description only when they
      are not empty; no key is sent twice. */
  lemma SpaceFormFields(name: string, icon: Picture, tagLine: string, about: string)
    ensures var f := SpaceForm(name, icon, tagLine, about);
      && DistinctKeys(f)
      && f[0] == (NameField, Text(name))
      && Lookup(f, IconField) == (if icon.file.File? then Some(FilePart(icon.file, None)) else None)
      && Lookup(f, TagLineField) == (if tagLine != "" then Some(Text(tagLine)) else None)
      && Lookup(f, AboutField) == (if about != "" then Some(Text(about)) else None)
      && Lookup(f, AvatarField) == None
  {
    var f0 := [(NameField, Text(name))];
    var f1 := AppendIf(f0, icon.file.File?, IconField, FilePart(icon.file, None));
    var f2 := AppendIf(f1, tagLine != "", TagLineField, Text(tagLine));
    LookupSingle(NameField, Text(name), IconField);
    LookupSingle(NameField, Text(name), TagLineField);
    LookupSingle(NameField, Text(name), AboutField);
    LookupSingle(NameField, Text(name), AvatarField);
    AppendIfFresh(f0, icon.file.File?, IconField, FilePart(icon.file, None));
    AppendIfFresh(f1, tagLine != "", TagLineField, Text(tagLine));
    AppendIfFresh(f2, about != "", AboutField, Text(about));
  }

  // ---- submit-button enabling on a name edit ----

  /** Whether `handleNameChange` leaves the submit button enabled, as
      written: the length test reads the name held BEFORE this edit (the
      state variable of the render that created the handler), while the
      pattern test reads the new, trimmed value. */
  function NameChangeEnablesSubmit(previousName: string, raw: string, minLength: int): bool {
    Utf16Length(previousName) >= minLength && MatchesNamePattern(Trim(raw))
  }

  /** The same decision made on the new value alone. */
  function IntendedNameChangeEnablesSubmit(raw: string, minLength: int): bool {
    Utf16Length(Trim(raw)) >= minLength && MatchesNamePattern(Trim(raw))
  }

  /** With the check made on the new value, the button is enabled exactly
      when `handleSubmit` would accept the stored name. */
  lemma IntendedEnablesExactlyValidNames(raw: string, minLength: int)
    ensures IntendedNameChangeEnablesSubmit(raw, minLength) <==>
              ValidateName(Trim(raw), minLength) == None
  {
    TrimIdempotent(raw);
    ValidateNameCases(Trim(raw), minLength);
  }

  /** As written, the button lags one keystroke behind: with a minimum of 3,
      typing the third letter of "abc" leaves it disabled although "abc" is
      valid, and deleting back to "ab" from "abcd" leaves it enabled although
      "ab" is too short. */
  lemma StaleLengthCounterexample()
    ensures !NameChangeEnablesSubmit("ab", "abc", 3) && ValidateName("abc", 3) == None
    ensures NameChangeEnablesSubmit("abcd", "ab", 3) && ValidateName("ab", 3) == Some(TooShort)
  {
    assert MatchesNamePattern("abc");
    assert MatchesNamePattern("ab");
    TrimUnpadded("abc");
    TrimUnpadded("ab");
    Utf16LengthBounds("ab");
    Utf16LengthBounds("abc");
    Utf16LengthBounds("abcd");
  }

  /** Whether `handleNameChange` raises the pattern error, as written: the
      same stale length test as the button, followed by the pattern test on
      the new, trimmed value. */
  function NameChangeFlagsPattern(previousName: string, raw: string, minLength: int): bool {
    Utf16Length(previousName) >= minLength && !MatchesNamePattern(Trim(raw))
  }

  /** The same decision made on the new value alone. */
  function IntendedNameChangeFlagsPattern(raw: string, minLength: int): bool {
    Utf16Length(Trim(raw)) >= minLength && !MatchesNamePattern(Trim(raw))
  }

  /** Deciding on the new value, the error is raised only for a name
      `handleSubmit` rejects, and for a non-blank name exactly when
      `handleSubmit` reports the pattern. */
  lemma IntendedNameChangeFlagAgreesWithSubmit(raw: string, minLength: int)
    ensures IntendedNameChangeFlagsPattern(raw, minLength) ==> ValidateName(Trim(raw), minLength).Some?
    ensures Trim(raw) != "" ==>
              (IntendedNameChangeFlagsPattern(raw, minLength) <==>
               ValidateName(Trim(raw), minLength) == Some(BadPattern))
  {
    TrimIdempotent(raw);
    ValidateNameCases(Trim(raw), minLength);
  }

  /** As written, the error lags one keystroke behind too: with a minimum of
      3, "1ab" typed after "ab" raises nothing although `handleSubmit` reports
      the pattern, and "1a" left after "abcd" raises the pattern error where
      `handleSubmit` reports the name too short. */
  lemma NameChangeFlagCounterexample()
    ensures !NameChangeFlagsPattern("ab", "1ab", 3) && ValidateName("1ab", 3) == Some(BadPattern)
    ensures NameChangeFlagsPattern("abcd", "1a", 3) && ValidateName("1a", 3) == Some(TooShort)
  {
    TrimUnpadded("1ab");
    TrimUnpadded("1a");
    Utf16LengthBounds("ab");
    Utf16LengthBounds("abcd");
    Utf16LengthBounds("1ab");
    Utf16LengthBounds("1a");
  }

  /** Whether `handleInputChange` raises the pattern error, as written: the
      length gate reads the name held BEFORE this edit, the pattern test the
      new, trimmed value. */
  function InputChangeFlagsPattern(previousName: string, raw: string): bool {
    Utf16Length(previousName) >= 2 && !MatchesNamePattern(Trim(raw))
  }

  /** The same decision made on the new value alone. */
  function IntendedInputChangeFlagsPattern(raw: string): bool {
    Utf16Length(Trim(raw)) >= 2 && !MatchesNamePattern(Trim(raw))
  }

  /** Deciding on the new value, the input error is one `handleSubmit` would
      also raise for any minimum length, and the pattern message for any
      minimum the value meets; for a value of two or more units it is raised
      exactly when `handleSubmit` with a minimum of 2 reports the pattern. */
  lemma IntendedInputChangeAgreesWithSubmit(raw: string)
    ensures IntendedInputChangeFlagsPattern(raw) ==> forall m :: ValidateName(Trim(raw), m).Some?
    ensures IntendedInputChangeFlagsPattern(raw) ==>
              forall m :: m <= Utf16Length(Trim(raw)) ==> ValidateName(Trim(raw), m) == Some(BadPattern)
    ensures Utf16Length(Trim(raw)) >= 2 ==>
              (IntendedInputChangeFlagsPattern(raw) <==> ValidateName(Trim(raw), 2) == Some(BadPattern))
  {
    TrimIdempotent(raw);
  }

  /** As written, the error lags one keystroke behind: typing "1a" after "1"
      raises nothing although "1a" fails the pattern, and deleting back to "a"
      from "ab" raises the pattern error on a one-letter prefix of a valid
      name. */
  lemma InputChangeCounterexample()
    ensures !InputChangeFlagsPattern("1", "1a") && IntendedInputChangeFlagsPattern("1a")
    ensures InputChangeFlagsPattern("ab", "a") && !IntendedInputChangeFlagsPattern("a")
  {
    TrimUnpadded("1a");
    TrimUnpadded("a");
    Utf16LengthBounds("1");
    Utf16LengthBounds("1a");
    Utf16LengthBounds("a");
    Utf16LengthBounds("ab");
  }

  // ---- the registration modal ----

  datatype Submission = Create(form: Form) | Update(form: Form, userId: Option<string>)

  class RegistrationModal {
    const userAvatar: string
    const tagline: string
    const update: bool
    var avatar: Picture
    var name: string
    var tagLine: string
    var error: string
    var inputError: bool

    /** The avatar URL moves away from the user's only together with a new
        file. */
    ghost predicate Valid()
      reads this
    {
      avatar.url != userAvatar ==> avatar.file.File?
    }

    constructor (userAvatar: string, userName: string, tagline: string, update: bool)
      ensures Valid()
      ensures this.userAvatar == userAvatar && this.tagline == tagline && this.update == update
      ensures avatar == Picture(NoFile, userAvatar) && name == userName && tagLine == tagline
      ensures error == "" && !inputError
    {
      this.userAvatar := userAvatar;
      this.tagline := tagline;
      this.update := update;
      avatar := Picture(NoFile, userAvatar);
      name := userName;
      tagLine := tagline;
      error := "";
      inputError := false;
    }

    /** `randomAvatar` once the generator has answered: a generated image and
        its object URL, or nothing on failure. */
    method AvatarGenerated(generated: Option<(Blob, string)>)
      requires Valid()
      modifies this`avatar, this`error
      ensures Valid()
      ensures generated.Some? ==>
                avatar == Picture(File(generated.value.0), generated.value.1) && error == old(error)
      ensures generated.None? ==> avatar == old(avatar) && error == AvatarFailedMessage
    {
      if generated.Some? {
        avatar := Picture(File(generated.value.0), generated.value.1);
      } else {
        error := AvatarFailedMessage;
      }
    }

    /** `handleSubmit`: a failing check sets its message and the input error
        and submits nothing; being offline only sets a message; an update
        that changes neither avatar nor tag line submits nothing; otherwise
        the form goes out, with the session's user id on an update. */
    method HandleSubmit(minNameLength: int, online: bool, extensions: map<string, string>,
                        sessionUserId: Option<string>)
      returns (submitted: Option<Submission>)
      requires Valid()
      modifies this`error, this`inputError
      ensures ValidateName(name, minNameLength).Some? ==>
                submitted == None && inputError &&
                error == RegistrationMessage(ValidateName(name, minNameLength).value)
      ensures ValidateName(name, minNameLength) == None ==>
                inputError == old(inputError) &&
                error == (if online then old(error) else OfflineMessage)
      ensures ValidateName(name, minNameLength) == None ==>
                (update && userAvatar == avatar.url && tagLine == tagline ==> submitted == None)
      ensures ValidateName(name, minNameLength) == None &&
              !(update && userAvatar == avatar.url && tagLine == tagline) ==>
                var f := RegistrationForm(update, name, userAvatar, avatar, tagline, tagLine, extensions);
                submitted == Some(if update then Update(f, sessionUserId) else Create(f))
      ensures submitted.Some? ==> MatchesNamePattern(name)
      ensures submitted.Some? && Lookup(submitted.value.form, AvatarField).Some? ==> avatar.file.File?
    {
      var check := ValidateName(name, minNameLength);
      if check.Some? {
        error := RegistrationMessage(check.value);
        inputError := true;
        return None;
      }
      if !online {
        error := OfflineMessage;
      }
      var form: Form := [];
      if !update {
        form := form + [(NameField, Text(name))];
      }
      if update && userAvatar == avatar.url && tagLine == tagline {
        return None;
      }
      if userAvatar != avatar.url {
        form := form + [(AvatarField, FilePart(avatar.file, Some(AvatarFilename(name, avatar.file, extensions))))];
      }
      if tagLine != tagline {
        form := form + [(TagLineField, Text(Trim(tagLine)))];
      }
      RegistrationFormFields(update, name, userAvatar, avatar, tagline, tagLine, extensions);
      if update {
        submitted := Some(Update(form, sessionUserId));
      } else {
        submitted := Some(Create(form));
      }
    }

    /** `handleInputChange`, corrected to test the new value: the trimmed
        value is stored and the error cleared; a value of at least two UTF-16
        units that fails the pattern raises the pattern error, which
        `handleSubmit` would then also raise. (As written, the length gate
        reads the name from before this edit; see `InputChangeFlagsPattern`.) */
    method HandleInputChange(raw: string)
      modifies this`name, this`error, this`inputError
      ensures name == Trim(raw)
      ensures inputError == IntendedInputChangeFlagsPattern(raw)
      ensures error == if inputError then PatternMessage else ""
      ensures inputError ==> forall m :: ValidateName(name, m).Some?
      ensures inputError ==> forall m :: m <= Utf16Length(name) ==> ValidateName(name, m) == Some(BadPattern)
    {
      var value := Trim(raw);
      IntendedInputChangeAgreesWithSubmit(raw);
      error := "";
      inputError := false;
      name := value;
      if Utf16Length(value) < 2 {
        return;
      }
      if !MatchesNamePattern(value) {
        error := PatternMessage;
        inputError := true;
      }
    }

    /** The tag line input's `onChange`. */
    method EditTagLine(value: string)
      modifies this`tagLine
      ensures tagLine == value
    {
      tagLine := value;
    }
  }

  // ---- the space creation modal ----

  class SpaceCreateModal {
    var icon: Picture
    var name: string
    var tagLine: string
    var about: string
    var error: string
    var submitBtnEnabled: bool
    var inputError: bool
    var crop: bool
    var notice: string

    /** Nothing ever writes the description: its text area has no change
        handler. */
    ghost predicate Valid()
      reads this
    {
      about == ""
    }

    constructor ()
      ensures Valid()
      ensures icon == Picture(NoFile, "") && name == "" && tagLine == "" && about == ""
      ensures error == "" && !submitBtnEnabled && !inputError && !crop && notice == ""
    {
      icon := Picture(NoFile, "");
      name := "";
      tagLine := "";
      about := "";
      error := "";
      submitBtnEnabled := false;
      inputError := false;
      crop := false;
      notice := "";
    }

    /** `handleSubmit`: the same ordered checks with the space's messages;
        offline, it sets a message and stops; otherwise the space form is
        submitted, and it never carries a description. */
    method HandleSubmit(minSpaceNameLength: int, online: bool) returns (submitted: Option<Form>)
      requires Valid()
      modifies this`error, this`inputError
      ensures ValidateName(name, minSpaceNameLength).Some? ==>
                submitted == None && inputError &&
                error == SpaceMessage(ValidateName(name, minSpaceNameLength).value)
      ensures ValidateName(name, minSpaceNameLength) == None && !online ==>
                submitted == None && error == OfflineMessage && inputError == old(inputError)
      ensures ValidateName(name, minSpaceNameLength) == None && online ==>
                submitted == Some(SpaceForm(name, icon, tagLine, about)) &&
                error == old(error) && inputError == old(inputError)
      ensures submitted.Some? ==> Lookup(submitted.value, AboutField) == None
    {
      var check := ValidateName(name, minSpaceNameLength);
      if check.Some? {
        error := SpaceMessage(check.value);
        inputError := true;
        return None;
      }
      if !online {
        error := OfflineMessage;
        return None;
      }
      var form: Form := [(NameField, Text(name))];
      if icon.file.File? {
        form := form + [(IconField, FilePart(icon.file, None))];
      }
      if tagLine != "" {
        form := form + [(TagLineField, Text(tagLine))];
      }
      if about != "" {
        form := form + [(AboutField, Text(about))];
      }
      SpaceFormFields(name, icon, tagLine, about);
      submitted := Some(form);
    }

    /** `handleNameChange`, corrected to test the new value: the submit
        button is disabled and the error cleared first; the trimmed value is
        stored; the button ends enabled exactly when that value is long enough
        and matches the pattern, which is exactly when `HandleSubmit` would
        accept it. (As written, the length test reads the name from before
        this edit; see `NameChangeEnablesSubmit` and `NameChangeFlagsPattern`.) */
    method HandleNameChange(raw: string, minSpaceNameLength: int)
      requires Valid()
      modifies this`name, this`error, this`inputError, this`submitBtnEnabled
      ensures Valid()
      ensures name == Trim(raw)
      ensures submitBtnEnabled == IntendedNameChangeEnablesSubmit(raw, minSpaceNameLength)
      ensures submitBtnEnabled <==> ValidateName(name, minSpaceNameLength) == None
      ensures inputError == (Utf16Length(name) >= minSpaceNameLength && !MatchesNamePattern(name))
      ensures inputError == IntendedNameChangeFlagsPattern(raw, minSpaceNameLength)
      ensures inputError ==> ValidateName(name, minSpaceNameLength).Some?
      ensures name != "" ==> (inputError <==> ValidateName(name, minSpaceNameLength) == Some(BadPattern))
      ensures error == if inputError then PatternMessage else ""
    {
      var value := Trim(raw);
      IntendedEnablesExactlyValidNames(raw, minSpaceNameLength);
      IntendedNameChangeFlagAgreesWithSubmit(raw, minSpaceNameLength);
      submitBtnEnabled := false;
      error := "";
      inputError := false;
      name := value;
      if Utf16Length(value) < minSpaceNameLength {
        return;
      }
      if !MatchesNamePattern(value) {
        error := PatternMessage;
        inputError := true;
        return;
      }
      submitBtnEnabled := true;
    }

    /** The tag line input's `onChange`. */
    method EditTagLine(value: string)
      modifies this`tagLine
      ensures tagLine == value
    {
      tagLine := value;
    }

    /** `handleImageUpload` once compression has produced `image` of
        `imageSize`: an image over the limit sets an error and keeps the
        current icon; otherwise it becomes the icon. */
    method HandleImageUpload(chosen: bool, image: Blob, imageSize: nat, maxUploadSize: nat, url: string)
      modifies this`notice, this`error, this`icon
      ensures !chosen ==> notice == old(notice) && error == old(error) && icon == old(icon)
      ensures chosen ==> notice == PreparingImageNotice
      ensures chosen && imageSize > maxUploadSize ==>
                icon == old(icon) && error == "File size exceeds " + NatToDecimal(maxUploadSize) + " MiB"
      ensures chosen && imageSize <= maxUploadSize ==>
                icon == Picture(File(image), url) && error == old(error)
    {
      if !chosen {
        return;
      }
      notice := PreparingImageNotice;
      if imageSize > maxUploadSize {
        error := "File size exceeds " + NatToDecimal(maxUploadSize) + " MiB";
        return;
      }
      icon := Picture(File(image), url);
    }

    /** The Next button: it starts the crop, which ends in
        `HandleCroppedImage`; a disabled button does nothing. */
    method PressNext()
      modifies this`crop
      ensures crop == (old(crop) || submitBtnEnabled)
    {
      if submitBtnEnabled {
        crop := true;
      }
    }

    /** `handleCroppedImage`: the cropped image replaces the icon, but the
        submission that follows in the same handler still reads the icon held
        before the crop. */
    method HandleCroppedImage(cropped: Option<(Blob, string)>, minSpaceNameLength: int, online: bool)
      returns (submitted: Option<Form>)
      requires Valid()
      modifies this`crop, this`icon, this`error, this`inputError
      ensures !crop
      ensures icon == if cropped.Some? then Picture(File(cropped.value.0), cropped.value.1) else old(icon)
      ensures ValidateName(name, minSpaceNameLength) == None && online ==>
                submitted == Some(SpaceForm(name, old(icon), tagLine, about))
      ensures ValidateName(name, minSpaceNameLength).Some? || !online ==> submitted == None
      ensures ValidateName(name, minSpaceNameLength).Some? ==>
                inputError && error == SpaceMessage(ValidateName(name, minSpaceNameLength).value)
      ensures ValidateName(name, minSpaceNameLength) == None && !online ==>
                error == OfflineMessage && inputError == old(inputError)
      ensures ValidateName(name, minSpaceNameLength) == None && online ==>
                error == old(error) && inputError == old(inputError)
    {
      crop := false;
      submitted := HandleSubmit(minSpaceNameLength, online);
      if cropped.Some? {
        icon := Picture(File(cropped.value.0), cropped.value.1);
      }
    }

    /** The creation's `onSuccess`: the icon is cleared. */
    method OnCreated()
      modifies this`icon
      ensures icon == Picture(NoFile, "")
    {
      icon := Picture(NoFile, "");
    }
  }
}
