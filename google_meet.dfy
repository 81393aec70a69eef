// lib/google-meet.ts: placeholder Google Meet links of the form
// https://meet.google.com/xxxx-xxxx-xxxx, their validation and the extraction of the id.
// `Math.random()` draws are inputs, one per letter.

module GoogleMeet {
  import opened Wrappers
  import opened Text

  const Alphabet: string := "abcdefghijklmnopqrstuvwxyz"

  const MeetPrefix: string := "https://meet.google.com/"

  /** `chars.charAt(Math.floor(Math.random() * chars.length))`. */
  function Letter(roll: real): (c: char)
    requires IsRoll(roll)
    ensures IsLower(c)
  {
    var k := (roll * 26.0).Floor;
    assert 0 <= k < 26;
    Alphabet[k]
  }

  predicate IsRoll(roll: real)
  {
    0.0 <= roll < 1.0
  }

  /** `[a-z]{4}`. */
  predicate IsGroup(g: string)
  {
    |g| == 4 && forall i :: 0 <= i < 4 ==> IsLower(g[i])
  }

  /** `[a-z]{4}-[a-z]{4}-[a-z]{4}`. */
  predicate IsMeetingId(s: string)
  {
    |s| == 14 && IsGroup(s[..4]) && s[4] == '-' && IsGroup(s[5..9]) && s[9] == '-' && IsGroup(s[10..])
  }

  /** `generateGroup`: four letters, one per draw. */
  method GenerateGroup(rolls: seq<real>) returns (g: string)
    requires |rolls| == 4 && forall i :: 0 <= i < 4 ==> IsRoll(rolls[i])
    ensures IsGroup(g)
    ensures forall i :: 0 <= i < 4 ==> g[i] == Letter(rolls[i])
  {
    g := "";
    for i := 0 to 4
      invariant |g| == i
      invariant forall j :: 0 <= j < i ==> g[j] == Letter(rolls[j])
    {
      g := g + [Letter(rolls[i])];
    }
  }

  /** `generateMeetingId`: three groups joined by dashes, from twelve draws. */
  method GenerateMeetingId(rolls: seq<real>) returns (id: string)
    requires |rolls| == 12 && forall i :: 0 <= i < 12 ==> IsRoll(rolls[i])
    ensures IsMeetingId(id)
    ensures forall i :: 0 <= i < 12 ==> id[i + i / 4] == Letter(rolls[i])
  {
    var a := GenerateGroup(rolls[..4]);
    var b := GenerateGroup(rolls[4..8]);
    var c := GenerateGroup(rolls[8..]);
    id := a + "-" + b + "-" + c;
    assert id[..4] == a && id[5..9] == b && id[10..] == c;
    forall i | 0 <= i < 12
      ensures id[i + i / 4] == Letter(rolls[i])
    {
      if i < 4 {
        assert id[i] == a[i] && rolls[..4][i] == rolls[i];
      } else if i < 8 {
        assert id[i + 1] == b[i - 4] && rolls[4..8][i - 4] == rolls[i];
      } else {
        assert id[i + 2] == c[i - 8] && rolls[8..][i - 8] == rolls[i];
      }
    }
  }

  datatype MeetInfo = MeetInfo(meetingLink: string, meetingId: string)

  /** `generateGoogleMeetLink`: every generated link is valid and gives its own id back. */
  method GenerateGoogleMeetLink(rolls: seq<real>) returns (info: MeetInfo)
    requires |rolls| == 12 && forall i :: 0 <= i < 12 ==> IsRoll(rolls[i])
    ensures info.meetingLink == MeetPrefix + info.meetingId
    ensures IsMeetingId(info.meetingId)
    ensures IsValidGoogleMeetLink(info.meetingLink)
    ensures ExtractMeetingId(info.meetingLink) == Some(info.meetingId)
  {
    var id := GenerateMeetingId(rolls);
    info := MeetInfo(MeetPrefix + id, id);
    ValidLinkExtracts(info.meetingLink);
  }

  /** `isValidGoogleMeetLink`: the whole string is the prefix and a meeting id. */
  predicate IsValidGoogleMeetLink(link: string)
  {
    StartsWith(link, MeetPrefix) && IsMeetingId(link[|MeetPrefix|..])
  }

  /** The unanchored pattern matches at position `i`. */
  predicate MatchAt(link: string, i: nat)
  {
    OccursAt(link, MeetPrefix, i) && i + |MeetPrefix| + 14 <= |link|
    && IsMeetingId(link[i + |MeetPrefix|..i + |MeetPrefix| + 14])
  }

  /** The leftmost match at or after `from`. */
  function FirstMatch(link: string, from: nat): (r: Option<nat>)
    requires from <= |link|
    decreases |link| - from
    ensures r.Some? ==> from <= r.value && MatchAt(link, r.value)
    ensures r.Some? ==> forall j :: from <= j < r.value ==> !MatchAt(link, j)
    ensures r.None? ==> forall j :: from <= j <= |link| ==> !MatchAt(link, j)
  {
    if MatchAt(link, from) then Some(from)
    else if from == |link| then None
    else FirstMatch(link, from + 1)
  }

  /** `extractMeetingId`: the id of the leftmost match anywhere in the string, or null. */
  function ExtractMeetingId(link: string): (r: Option<string>)
    ensures r.Some? ==> IsMeetingId(r.value)
    ensures r.None? <==> forall j :: 0 <= j <= |link| ==> !MatchAt(link, j)
  {
    match FirstMatch(link, 0)
    case Some(i) => Some(link[i + |MeetPrefix|..i + |MeetPrefix| + 14])
    case None => None
  }

  /** A valid link yields the id it ends with. */
  lemma ValidLinkExtracts(link: string)
    requires IsValidGoogleMeetLink(link)
    ensures ExtractMeetingId(link) == Some(link[|MeetPrefix|..])
  {
    assert link[|MeetPrefix|..|MeetPrefix| + 14] == link[|MeetPrefix|..];
    assert MatchAt(link, 0);
  }

  /**
   * Extraction is unanchored and validation is not: a valid link behind text without an 'h'
   * (and followed by anything) is rejected as a link, yet its id is still extracted.
   */
  lemma EmbeddedLinkStillExtracts(before: string, id: string, after: string)
    requires IsMeetingId(id) && 'h' !in before && |before| + |after| > 0
    ensures var s := before + MeetPrefix + id + after;
      !IsValidGoogleMeetLink(s) && ExtractMeetingId(s) == Some(id)
  {
    var s := before + MeetPrefix + id + after;
    var n := |before|;
    var p := |MeetPrefix|;
    assert s[n..n + p] == MeetPrefix;
    assert s[n + p..n + p + 14] == id;
    assert MatchAt(s, n);
    forall j | 0 <= j < n
      ensures !MatchAt(s, j)
    {
      assert s[j] == before[j];
      assert MeetPrefix[0] == 'h';
    }
    if n > 0 {
      assert s[0] == before[0] && s[0] != MeetPrefix[0];
    } else {
      assert |s| == p + 14 + |after|;
    }
  }
}
