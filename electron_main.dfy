/** The Electron main process: which screen source the two IPC handlers hand to the renderer, and which
    permissions the session grants. Enumerating sources and displays is done by Electron; the lists
    are parameters here. */
module ElectronMain {
  import opened Wrappers

  /** A capturable screen as `desktopCapturer.getSources` lists it. */
  datatype Source = Source(id: string, name: string, displayId: string)

  /** What a handler returns to the renderer. */
  datatype Selected = Selected(id: string, name: string)

  datatype Error = NoDesktopSources

  /** JavaScript's `\s`: the white-space and line-terminator characters. */
  predicate IsJsSpace(c: char) {
    ('\U{0009}' <= c <= '\U{000D}') || c == ' ' || c == '\U{00A0}' || c == '\U{1680}' ||
    ('\U{2000}' <= c <= '\U{200A}') || c == '\U{2028}' || c == '\U{2029}' || c == '\U{202F}' ||
    c == '\U{205F}' || c == '\U{3000}' || c == '\U{FEFF}'
  }

  predicate IsDigit(c: char) {
    '0' <= c <= '9'
  }

  /** Case-insensitive equality of one character with a lower-case ASCII letter; without the `u` flag
      only ASCII letters fold, so nothing outside ASCII matches. */
  predicate SameLetter(c: char, lower: char)
    requires 'a' <= lower <= 'z'
  {
    c == lower || c as int == lower as int - 32
  }

  /** `screen` matched case-insensitively at position `i` of `s`. */
  predicate ScreenAt(s: string, i: nat) {
    i + 6 <= |s| &&
    SameLetter(s[i], 's') && SameLetter(s[i + 1], 'c') && SameLetter(s[i + 2], 'r') &&
    SameLetter(s[i + 3], 'e') && SameLetter(s[i + 4], 'e') && SameLetter(s[i + 5], 'n')
  }

  /** `\s*` followed by a character accepted by `last`, from position `j` of `s`. */
  predicate SpacesThen(s: string, j: nat, digitOne: bool)
    decreases |s| - j
  {
    j < |s| &&
    ((if digitOne then s[j] == '1' else IsDigit(s[j])) || (IsJsSpace(s[j]) && SpacesThen(s, j + 1, digitOne)))
  }

  /** `/Screen\s*\d+/i.test(name)` (digitOne false) and `/Screen\s*1/i.test(name)` (digitOne true):
      the pattern may start anywhere in the name; the `+` after `\d` needs only one digit. */
  predicate MatchesScreen(name: string, digitOne: bool) {
    exists i :: 0 <= i < |name| && ScreenAt(name, i) && SpacesThen(name, i + 6, digitOne)
  }

  /** `Array.prototype.find`: the index of the first element accepted by `p`. */
  function FindIndex(sources: seq<Source>, p: Source -> bool): (r: Option<nat>)
    ensures r.Some? ==> r.value < |sources| && p(sources[r.value]) &&
                        forall k :: 0 <= k < r.value ==> !p(sources[k])
    ensures r.None? ==> forall k :: 0 <= k < |sources| ==> !p(sources[k])
  {
    if |sources| == 0 then None
    else if p(sources[0]) then Some(0)
    else match FindIndex(sources[1..], p)
      case None => None
      case Some(k) => Some(k + 1)
  }

  /** Source `k` is the first whose name matches the pattern. */
  predicate FirstNamed(sources: seq<Source>, k: nat, digitOne: bool) {
    k < |sources| && MatchesScreen(sources[k].name, digitOne) &&
    forall j :: 0 <= j < k ==> !MatchesScreen(sources[j].name, digitOne)
  }

  predicate NoneNamed(sources: seq<Source>, digitOne: bool) {
    forall j :: 0 <= j < |sources| ==> !MatchesScreen(sources[j].name, digitOne)
  }

  function Pick(s: Source): Selected {
    Selected(s.id, s.name)
  }

  /** 'ffxiv/select-desktop-source': the first source named like "Screen <n>", otherwise the first
      source; an empty list throws. */
  function SelectDesktopSource(sources: seq<Source>): (r: Result<Selected, Error>)
    ensures r.Failure? <==> |sources| == 0
    ensures r.Success? ==> exists k :: 0 <= k < |sources| && r.value == Pick(sources[k])
    ensures r.Success? && NoneNamed(sources, false) ==> r.value == Pick(sources[0])
    ensures forall k: nat :: FirstNamed(sources, k, false) ==> r == Success(Pick(sources[k]))
  {
    match FindIndex(sources, (s: Source) => MatchesScreen(s.name, false))
    case Some(k) => Success(Pick(sources[k]))
    case None => if |sources| == 0 then Failure(NoDesktopSources) else Success(Pick(sources[0]))
  }

  /** The `display_id` test: a non-empty id whose string form equals the primary display's id. */
  predicate IsPrimary(s: Source, primaryId: string) {
    s.displayId != "" && s.displayId == primaryId
  }

  predicate FirstPrimary(sources: seq<Source>, k: nat, primaryId: string) {
    k < |sources| && IsPrimary(sources[k], primaryId) &&
    forall j :: 0 <= j < k ==> !IsPrimary(sources[j], primaryId)
  }

  predicate NonePrimary(sources: seq<Source>, primaryId: string) {
    forall j :: 0 <= j < |sources| ==> !IsPrimary(sources[j], primaryId)
  }

  /** 'ffxiv/select-primary-screen': the source on the primary display, else the first named like
      "Screen 1", else the first source; an empty list throws. */
  function SelectPrimaryScreen(sources: seq<Source>, primaryId: string): (r: Result<Selected, Error>)
    ensures r.Failure? <==> |sources| == 0
    ensures forall k: nat :: FirstPrimary(sources, k, primaryId) ==> r == Success(Pick(sources[k]))
    ensures NonePrimary(sources, primaryId) ==>
      forall k: nat :: FirstNamed(sources, k, true) ==> r == Success(Pick(sources[k]))
    ensures |sources| > 0 && NonePrimary(sources, primaryId) && NoneNamed(sources, true) ==>
      r == Success(Pick(sources[0]))
  {
    match FindIndex(sources, (s: Source) => IsPrimary(s, primaryId))
    case Some(k) => Success(Pick(sources[k]))
    case None =>
      match FindIndex(sources, (s: Source) => MatchesScreen(s.name, true))
      case Some(k) => Success(Pick(sources[k]))
      case None => if |sources| == 0 then Failure(NoDesktopSources) else Success(Pick(sources[0]))
  }

  /** "Screen 1" is also a "Screen <n>" name, so a source the primary-screen handler finds by name
      would also be accepted by the desktop-source handler's pattern. */
  lemma {:induction false} ScreenOneIsScreenDigit(s: string, j: nat)
    requires SpacesThen(s, j, true)
    ensures SpacesThen(s, j, false)
    decreases |s| - j
  {
    if s[j] != '1' {
      ScreenOneIsScreenDigit(s, j + 1);
    }
  }

  /** The permissions both handlers allow. */
  const AllowedPermissions: set<string> := {"media", "display-capture", "fullscreen"}

  /** The permission-request handler's answer. */
  function PermissionRequest(permission: string): bool {
    if permission == "media" || permission == "display-capture" || permission == "fullscreen" then true
    else false
  }

  /** The permission-check handler's answer. */
  function PermissionCheck(permission: string): bool {
    permission == "media" || permission == "display-capture" || permission == "fullscreen"
  }

  /** Both handlers grant exactly the allow-list, so they always agree. */
  lemma PermissionHandlersAgree(permission: string)
    ensures PermissionRequest(permission) <==> permission in AllowedPermissions
    ensures PermissionCheck(permission) == PermissionRequest(permission)
  {
  }

  /** Examples of the name pattern: "Screen 2" and "screen1" match, "Entire screen" does not. */
  lemma ScreenPatternExamples()
    ensures MatchesScreen("Screen 2", false)
    ensures MatchesScreen("screen1", true)
    ensures !MatchesScreen("Entire screen", false)
  {
    assert ScreenAt("Screen 2", 0) && SpacesThen("Screen 2", 7, false);
    assert SpacesThen("Screen 2", 6, false);
    assert ScreenAt("screen1", 0) && SpacesThen("screen1", 6, true);
    var e := "Entire screen";
    forall i | 0 <= i < |e| && ScreenAt(e, i) ensures !SpacesThen(e, i + 6, false) {
      assert i == 7;
    }
  }
}
