/** The profile header: avatar initials, the verified mark and badge, and
    the three formatted counts. */
module ProfileHeader {
  import opened Text
  import opened Influencer
  import opened Display

  /** `parts.map(n => n[0]).join('')`: the first character of every part;
      an empty part gives `undefined`, which `join` prints as nothing. */
  function FirstChars(parts: seq<string>): (r: string)
    ensures |r| <= |parts|
  {
    if parts == [] then []
    else (if parts[0] == [] then [] else [parts[0][0]]) + FirstChars(parts[1..])
  }

  /** `name.split(' ').map(n => n[0]).join('')`: exactly the first letters
      of the words of the name, in order; doubled, leading or trailing
      spaces add nothing. */
  function Initials(name: string): (r: string)
    ensures r == WordStarts(name, true)
  {
    SplitFirstChars(name);
    FirstChars(Split(name, ' '))
  }

  /** The characters of `s` that start a word: not a space, and first or
      right after a space (`atStart` says whether the character before `s`
      was a space or there was none). */
  function WordStarts(s: string, atStart: bool): (r: string)
    ensures ' ' !in r
  {
    if s == [] then []
    else if s[0] == ' ' then WordStarts(s[1..], true)
    else (if atStart then [s[0]] else []) + WordStarts(s[1..], false)
  }

  lemma {:induction false} SplitFirstChars(s: string)
    ensures FirstChars(Split(s, ' ')) == WordStarts(s, true)
    ensures FirstChars(Split(s, ' ')[1..]) == WordStarts(s, false)
  {
    if s != [] {
      SplitFirstChars(s[1..]);
      var rest := Split(s[1..], ' ');
      if s[0] == ' ' {
        assert Split(s, ' ') == [[]] + rest;
      } else {
        var parts := Split(s, ' ');
        assert parts == [[s[0]] + rest[0]] + rest[1..];
        assert parts[1..] == rest[1..];
      }
    }
  }

  /** A doubled space and a trailing space add no initial. */
  lemma InitialsExample()
    ensures Initials("A  B ") == "AB"
  {
    assert WordStarts(" ", false) == [];
    assert WordStarts("B ", true) == "B";
    assert WordStarts(" B ", true) == "B";
    assert WordStarts("  B ", false) == "B";
  }

  /** What the header shows of a profile. */
  datatype Header = Header(
    initials: string,
    verifiedMark: bool,
    counts: seq<string>,
    badges: seq<Badge>)

  const VerifiedBadge: Badge := Badge("Verified Account", Default)

  /** The badges every profile shows. */
  const CreatorBadges: seq<Badge> := [
    Badge("Lifestyle Creator", Secondary),
    Badge("Fashion Influencer", Secondary),
    Badge("Brand Partner", Secondary)
  ]

  /** The header of a profile: the verified mark and the "Verified Account"
      badge appear exactly for a verified profile, after the three fixed
      badges; the counts are posts, followers and following, formatted. */
  function HeaderOf(p: Profile): (h: Header)
    ensures h.verifiedMark <==> p.verified
    ensures VerifiedBadge in h.badges <==> p.verified
    ensures |h.badges| == if p.verified then 4 else 3
    ensures h.initials == WordStarts(p.name, true)
    ensures h.counts == [FormatNumber(p.postsCount), FormatNumber(p.followers), FormatNumber(p.following)]
  {
    assert VerifiedBadge !in CreatorBadges by {
      assert forall i | 0 <= i < 3 :: CreatorBadges[i].text[0] != 'V';
    }
    Header(
      Initials(p.name),
      p.verified,
      [FormatNumber(p.postsCount), FormatNumber(p.followers), FormatNumber(p.following)],
      CreatorBadges + (if p.verified then [VerifiedBadge] else []))
  }
}
