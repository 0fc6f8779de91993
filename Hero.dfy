/**
 * The hero section: a role caption that rotates through a fixed list on
 * a 3000 ms interval, the name split into words for a staggered reveal,
 * and social links that open in a new tab when they point to the web.
 */
module Hero {
  import opened Wrappers

  /** The rotating captions, in display order. */
  const Roles: seq<string> := ["Full-Stack Developer", "ML Engineer", "Data Analyst", "Problem Solver"]
  /** The name the heading reveals word by word. */
  const FullName: string := "Prashant Kumar Yadav"

  /** One interval tick: `(prev + 1) % count`, the next caption in order, wrapping to the first. */
  function NextRole(prev: nat, count: nat): (next: nat)
    requires count > 0
    ensures next < count
    ensures prev + 1 < count ==> next == prev + 1
    ensures prev + 1 == count ==> next == 0
  {
    (prev + 1) % count
  }

  /** The caption index after `ticks` interval ticks from the start. */
  function RoleAfter(ticks: nat, count: nat): (idx: nat)
    requires count > 0
    ensures idx < count
  {
    if ticks == 0 then 0 else NextRole(RoleAfter(ticks - 1, count), count)
  }

  /** Before the first wrap-around, the caption after `k` ticks is caption `k`. */
  lemma {:induction false} RoleAfterBeforeWrap(ticks: nat, count: nat)
    requires ticks < count
    ensures RoleAfter(ticks, count) == ticks
  {
    if ticks > 0 {
      RoleAfterBeforeWrap(ticks - 1, count);
    }
  }

  /** The captions cycle: after `count` ticks the rotation is back at the first caption, and every `count` ticks it repeats. */
  lemma {:induction false} RolesCycle(ticks: nat, count: nat)
    requires count > 0
    ensures RoleAfter(count, count) == 0
    ensures RoleAfter(ticks + count, count) == RoleAfter(ticks, count)
  {
    RoleAfterBeforeWrap(count - 1, count);
    if ticks > 0 {
      RolesCycle(ticks - 1, count);
      assert RoleAfter(ticks + count, count) == NextRole(RoleAfter(ticks - 1 + count, count), count);
    }
  }

  /** The rotating caption's state. */
  class RoleRotation {
    var roleIndex: nat
    /** Interval ticks so far. */
    ghost var ticks: nat

    ghost predicate Valid()
      reads this
    {
      roleIndex == RoleAfter(ticks, |Roles|)
    }

    constructor ()
      ensures Valid() && roleIndex == 0 && ticks == 0
    {
      roleIndex := 0;
      ticks := 0;
    }

    /** The 3000 ms interval fires. */
    method Tick()
      requires Valid()
      modifies this
      ensures Valid()
      ensures ticks == old(ticks) + 1
      ensures roleIndex == NextRole(old(roleIndex), |Roles|)
    {
      roleIndex := (roleIndex + 1) % |Roles|;
      ticks := ticks + 1;
    }

    /** The caption on screen. */
    function CurrentRole(): (role: string)
      reads this
      requires Valid()
      ensures role in Roles
    {
      Roles[roleIndex]
    }
  }

  /** `s.split(sep)`: the pieces between separators, empty pieces included. */
  function Split(s: string, sep: char): (parts: seq<string>)
    ensures |parts| >= 1
    ensures forall i :: 0 <= i < |parts| ==> sep !in parts[i]
  {
    if s == [] then [""]
    else
      var rest := Split(s[1..], sep);
      if s[0] == sep then [""] + rest
      else [[s[0]] + rest[0]] + rest[1..]
  }

  /** Joining pieces back with the separator between them. */
  function Join(parts: seq<string>, sep: char): string
    requires |parts| >= 1
  {
    if |parts| == 1 then parts[0] else parts[0] + [sep] + Join(parts[1..], sep)
  }

  /** Prepending a character to the first piece prepends it to the joined string. */
  lemma JoinConsFirst(c: char, parts: seq<string>, sep: char)
    requires |parts| >= 1
    ensures Join([[c] + parts[0]] + parts[1..], sep) == [c] + Join(parts, sep)
  {
    var moved := [[c] + parts[0]] + parts[1..];
    assert moved[1..] == parts[1..];
  }

  /** Splitting loses nothing: the pieces joined by the separator give back the string. */
  lemma {:induction false} SplitJoin(s: string, sep: char)
    ensures Join(Split(s, sep), sep) == s
  {
    if s != [] {
      var rest := Split(s[1..], sep);
      SplitJoin(s[1..], sep);
      if s[0] == sep {
        assert ([""] + rest)[1..] == rest;
      } else {
        JoinConsFirst(s[0], rest, sep);
      }
      assert s == [s[0]] + s[1..];
    }
  }

  /** A piece without separators splits to itself. */
  lemma {:induction false} SplitNoSeparator(p: string, sep: char)
    requires sep !in p
    ensures Split(p, sep) == [p]
  {
    if p != [] {
      SplitNoSeparator(p[1..], sep);
      assert [p[0]] + p[1..] == p;
    }
  }

  /** A separator-free piece followed by a separator splits off as the first piece. */
  lemma {:induction false} SplitAfterPiece(p: string, sep: char, t: string)
    requires sep !in p
    ensures Split(p + [sep] + t, sep) == [p] + Split(t, sep)
  {
    var s := p + [sep] + t;
    if p == [] {
      assert s[1..] == t;
    } else {
      SplitAfterPiece(p[1..], sep, t);
      assert s[1..] == p[1..] + [sep] + t;
      assert [p[0]] + p[1..] == p;
    }
  }

  /** Joining separator-free pieces and splitting again gives back the pieces. */
  lemma {:induction false} JoinSplit(parts: seq<string>, sep: char)
    requires |parts| >= 1
    requires forall i :: 0 <= i < |parts| ==> sep !in parts[i]
    ensures Split(Join(parts, sep), sep) == parts
  {
    if |parts| == 1 {
      SplitNoSeparator(parts[0], sep);
    } else {
      JoinSplit(parts[1..], sep);
      SplitAfterPiece(parts[0], sep, Join(parts[1..], sep));
      assert [parts[0]] + parts[1..] == parts;
    }
  }

  /** The heading renders the name as its three words, in order. */
  lemma NameWords()
    ensures Split(FullName, ' ') == ["Prashant", "Kumar", "Yadav"]
  {
    var words := ["Prashant", "Kumar", "Yadav"];
    assert Join(words, ' ') == FullName;
    JoinSplit(words, ' ');
  }

  /** The `target` and `rel` a social link gets. */
  datatype LinkAttrs = LinkAttrs(target: Option<string>, rel: Option<string>)

  /** `href.startsWith(prefix)`. */
  predicate StartsWith(s: string, prefix: string)
  {
    |prefix| <= |s| && s[..|prefix|] == prefix
  }

  /** Web links open in a new tab without an opener; other links (mail) open in place. */
  function SocialLinkAttrs(href: string): (a: LinkAttrs)
    ensures a.target.Some? <==> StartsWith(href, "http")
    ensures a.rel.Some? <==> StartsWith(href, "http")
    ensures a.target.Some? ==> a.target.value == "_blank" && a.rel == Some("noopener noreferrer")
  {
    if StartsWith(href, "http") then LinkAttrs(Some("_blank"), Some("noopener noreferrer"))
    else LinkAttrs(None, None)
  }

  /** The LinkedIn and GitHub links open a new tab; the mail link does not. */
  lemma SocialLinks()
    ensures SocialLinkAttrs("https://linkedin.com/in/prashant-yadav").target == Some("_blank")
    ensures SocialLinkAttrs("https://github.com/DazedSaturn07").target == Some("_blank")
    ensures SocialLinkAttrs("mailto:prashantyadav5735@gmail.com") == LinkAttrs(None, None)
  {
    var linkedIn, gitHub, mail := "https://linkedin.com/in/prashant-yadav", "https://github.com/DazedSaturn07", "mailto:prashantyadav5735@gmail.com";
    assert linkedIn[0] == 'h' && linkedIn[1] == 't' && linkedIn[2] == 't' && linkedIn[3] == 'p';
    assert linkedIn[..4] == "http";
    assert gitHub[0] == 'h' && gitHub[1] == 't' && gitHub[2] == 't' && gitHub[3] == 'p';
    assert gitHub[..4] == "http";
    assert mail[0] == 'm';
  }
}
