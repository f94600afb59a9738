/** The display helpers the pages share (src/utils/helpers.ts): initials
    for avatars, the badge colour of a status, and the time shown as is. */
module Helpers {
  import opened Types
  import opened Strings
  import Seqs

  /** `time` is shown exactly as stored. */
  function FormatTime(time: string): (r: string)
    ensures r == time
  {
    time
  }

  /** `s.split(' ')`: the pieces between single spaces, empty pieces
      included, so that there is always one more piece than spaces. */
  function SplitSpaces(s: string): (r: seq<string>)
    ensures |r| >= 1
    decreases |s|
  {
    var k := Seqs.FirstIndex(s, (c: char) => c == ' ');
    if k == |s| then [s] else [s[..k]] + SplitSpaces(s[k + 1..])
  }

  /** `.map(n => n[0]).join('')`: the first character of each piece; an
      empty piece gives `undefined`, which `join` writes as nothing. */
  function FirstChars(words: seq<string>): (r: string)
    ensures |r| <= |words|
  {
    if words == [] then []
    else (if words[0] == [] then [] else [words[0][0]]) + FirstChars(words[1..])
  }

  /** The characters that begin a word: not a space, and first or right
      after a space.  `afterSpace` says whether the previous character was a
      space (or there was none). */
  function StartsFrom(s: string, afterSpace: bool): string
    decreases |s|
  {
    if s == [] then []
    else (if afterSpace && s[0] != ' ' then [s[0]] else []) + StartsFrom(s[1..], s[0] == ' ')
  }

  function WordStarts(s: string): string {
    StartsFrom(s, true)
  }

  /** Inside a word nothing new starts. */
  lemma {:induction false} SkipWord(s: string, j: nat)
    requires j <= |s|
    requires forall i :: 0 <= i < j ==> s[i] != ' '
    ensures StartsFrom(s, false) == StartsFrom(s[j..], false)
    decreases j
  {
    if j > 0 {
      SkipWord(s[1..], j - 1);
      assert s[1..][j - 1..] == s[j..];
    }
  }

  /** Splitting on spaces and taking each piece's first character gives
      exactly the characters that begin a word. */
  lemma {:induction false} FirstCharsAreWordStarts(s: string)
    ensures FirstChars(SplitSpaces(s)) == WordStarts(s)
    decreases |s|
  {
    var k := Seqs.FirstIndex(s, (c: char) => c == ' ');
    if k == |s| {
      if s != [] {
        SkipWord(s[1..], |s| - 1);
      }
    } else {
      FirstCharsAreWordStarts(s[k + 1..]);
      assert SplitSpaces(s) == [s[..k]] + SplitSpaces(s[k + 1..]);
      assert FirstChars(SplitSpaces(s)) ==
             (if k == 0 then [] else [s[0]]) + FirstChars(SplitSpaces(s[k + 1..]));
      if k > 0 {
        SkipWord(s[1..], k - 1);
        assert s[1..][k - 1..] == s[k..];
        assert StartsFrom(s[k..], false) == StartsFrom(s[k + 1..], true);
      }
    }
  }

  /** `getInitials(name)`: the first letters of the first two words,
      upper-cased. */
  function GetInitials(name: string): (r: string)
    ensures |r| <= 2
    ensures r == Seqs.Take(Upper(WordStarts(name)), 2)
  {
    FirstCharsAreWordStarts(name);
    Seqs.Take(Upper(FirstChars(SplitSpaces(name))), 2)
  }

  /** The badge classes of `getStatusColor`. */
  const Green := "bg-green-100 text-green-800"
  const Yellow := "bg-yellow-100 text-yellow-800"
  const Blue := "bg-blue-100 text-blue-800"
  const Red := "bg-red-100 text-red-800"
  const Purple := "bg-purple-100 text-purple-800"
  const Gray := "bg-gray-100 text-gray-800"

  const StatusColors: map<string, string> := map[
    "active" := Green, "pending" := Yellow, "completed" := Blue,
    "cancelled" := Red, "confirmed" := Purple, "sold" := Gray, "rejected" := Red]

  /** `getStatusColor(status)`: the table entry for the status in lower
      case, gray for an unknown status. */
  function GetStatusColor(status: string): (r: string)
    ensures r in StatusColors.Values
    ensures Lower(status) !in StatusColors ==> r == Gray
  {
    var key := Lower(status);
    assert StatusColors["sold"] == Gray;
    if key in StatusColors then StatusColors[key] else Gray
  }

  /** The colour does not depend on the case of the status. */
  lemma StatusColorIgnoresCase(status: string)
    ensures GetStatusColor(status) == GetStatusColor(Lower(status))
  {
    LowerIdempotent(status);
  }

  /** Every status a user, a listing or an appointment can carry has an
      entry of its own in the table. */
  lemma UserStatusHasColor(u: UserStatus)
    ensures UserStatusName(u) in StatusColors
    ensures GetStatusColor(UserStatusName(u)) == StatusColors[UserStatusName(u)]
  {
    LowerFixesLowerCase(UserStatusName(u));
  }

  lemma PropertyStatusHasColor(p: PropertyStatus)
    ensures PropertyStatusName(p) in StatusColors
    ensures GetStatusColor(PropertyStatusName(p)) == StatusColors[PropertyStatusName(p)]
  {
    LowerFixesLowerCase(PropertyStatusName(p));
  }

  lemma AppointmentStatusHasColor(a: AppointmentStatus)
    ensures AppointmentStatusName(a) in StatusColors
    ensures GetStatusColor(AppointmentStatusName(a)) == StatusColors[AppointmentStatusName(a)]
  {
    LowerFixesLowerCase(AppointmentStatusName(a));
  }

  /** A cancelled appointment and a rejected listing or account share the
      red badge; a sold listing cannot be told from an unknown status. */
  lemma SharedColors()
    ensures GetStatusColor(AppointmentStatusName(AppointmentStatus.Cancelled)) == Red
    ensures GetStatusColor(PropertyStatusName(PropertyStatus.Rejected)) == Red
    ensures GetStatusColor(PropertyStatusName(PropertyStatus.Sold)) == Gray
  {
    AppointmentStatusHasColor(AppointmentStatus.Cancelled);
    PropertyStatusHasColor(PropertyStatus.Rejected);
    PropertyStatusHasColor(PropertyStatus.Sold);
  }

  /** A string with no upper-case letter is its own lower case. */
  lemma LowerFixesLowerCase(s: string)
    requires forall i :: 0 <= i < |s| ==> !('A' <= s[i] <= 'Z')
    ensures Lower(s) == s
  {
    forall i | 0 <= i < |s| ensures Lower(s)[i] == s[i] {
    }
  }
}
