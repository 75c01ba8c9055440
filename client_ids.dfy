/**
 * The client identity that addresses a channel endpoint: `user + "@" + room`,
 * decoded by splitting the text at every '@'.
 */
module ClientIds {

  const Separator: char := '@'

  /** The parts laid end to end with `sep` between neighbours (the inverse of Split). */
  function JoinWith(parts: seq<string>, sep: char): (s: string)
    requires |parts| >= 1
    ensures |parts[0]| <= |s| && s[..|parts[0]|] == parts[0]
    ensures |parts| == 1 ==> s == parts[0]
    ensures |parts| > 1 ==> |parts[0]| < |s| && s[|parts[0]|] == sep
    decreases |parts|
  {
    if |parts| == 1 then parts[0]
    else parts[0] + [sep] + JoinWith(parts[1..], sep)
  }

  /** The number of occurrences of `c` in `s` (Go's strings.Count for one character). */
  function Occurrences(s: string, c: char): (n: nat)
    ensures n <= |s|
    ensures n == 0 <==> c !in s
    decreases |s|
  {
    if |s| == 0 then 0
    else (if s[0] == c then 1 else 0) + Occurrences(s[1..], c)
  }

  /**
   * The pieces of `s` between occurrences of `sep`, as Go's strings.Split with
   * a one-character separator: one more piece than there are separators.
   */
  function Split(s: string, sep: char): (parts: seq<string>)
    ensures |parts| >= 1
    ensures forall i :: 0 <= i < |parts| ==> sep !in parts[i]
    ensures JoinWith(parts, sep) == s
    ensures sep in s ==> |parts| >= 2
    decreases |s|
  {
    if |s| == 0 then [""]
    else
      var rest := Split(s[1..], sep);
      if s[0] == sep then
        assert s == [sep] + s[1..];
        [""] + rest
      else
        JoinWithExtendFirst(s[0], rest, sep);
        assert s == [s[0]] + s[1..];
        [[s[0]] + rest[0]] + rest[1..]
  }

  /** Putting a character in front of the first part puts it in front of the joined text. */
  lemma JoinWithExtendFirst(c: char, parts: seq<string>, sep: char)
    requires |parts| >= 1
    ensures JoinWith([[c] + parts[0]] + parts[1..], sep) == [c] + JoinWith(parts, sep)
  {
    var extended := [[c] + parts[0]] + parts[1..];
    assert extended[1..] == parts[1..];
  }

  /** Split gives exactly one more piece than there are separators, as strings.Split sizes its result. */
  lemma {:induction false} SplitCount(s: string, sep: char)
    ensures |Split(s, sep)| == Occurrences(s, sep) + 1
    decreases |s|
  {
    if |s| > 0 {
      SplitCount(s[1..], sep);
    }
  }

  /** Splitting a text with no separator gives the text back as the only piece. */
  lemma {:induction false} SplitWithoutSeparator(s: string, sep: char)
    requires sep !in s
    ensures Split(s, sep) == [s]
    decreases |s|
  {
    if |s| > 0 {
      SplitWithoutSeparator(s[1..], sep);
    }
  }

  /** A separator-free prefix followed by the separator becomes a piece of its own. */
  lemma {:induction false} SplitAfterPrefix(a: string, b: string, sep: char)
    requires sep !in a
    ensures Split(a + [sep] + b, sep) == [a] + Split(b, sep)
    decreases |a|
  {
    var s := a + [sep] + b;
    if |a| == 0 {
      assert s[1..] == b;
    } else {
      assert s[1..] == a[1..] + [sep] + b;
      SplitAfterPrefix(a[1..], b, sep);
      assert [a[0]] + a[1..] == a;
    }
  }

  /**
   * Split undoes JoinWith: separator-free parts joined with the separator are
   * split back into exactly those parts. With Split's own contract, the two are
   * inverse bijections between texts and non-empty lists of separator-free parts.
   */
  lemma {:induction false} SplitJoinWith(parts: seq<string>, sep: char)
    requires |parts| >= 1
    requires forall i :: 0 <= i < |parts| ==> sep !in parts[i]
    ensures Split(JoinWith(parts, sep), sep) == parts
    decreases |parts|
  {
    if |parts| == 1 {
      SplitWithoutSeparator(parts[0], sep);
    } else {
      SplitJoinWith(parts[1..], sep);
      SplitAfterPrefix(parts[0], JoinWith(parts[1..], sep), sep);
      assert [parts[0]] + parts[1..] == parts;
    }
  }

  /** Where the first two parts sit in the joined text: the first two pieces as Split finds them. */
  lemma JoinWithFirstTwo(parts: seq<string>, sep: char)
    requires |parts| >= 2
    ensures var s, start := JoinWith(parts, sep), |parts[0]| + 1;
      && start + |parts[1]| <= |s|
      && s[..|parts[0]|] == parts[0] && s[|parts[0]|] == sep
      && s[start..start + |parts[1]|] == parts[1]
      && (start + |parts[1]| == |s| || s[start + |parts[1]|] == sep)
  {
    var s, start := JoinWith(parts, sep), |parts[0]| + 1;
    var tail := parts[1..];
    assert tail[0] == parts[1];
    var rest := JoinWith(tail, sep);
    assert s[start..] == rest;
    assert s[start..start + |parts[1]|] == rest[..|parts[1]|];
  }

  function MakeClientId(room: string, user: string): (id: string)
    ensures |id| == |user| + 1 + |room|
    ensures id[..|user|] == user && id[|user|] == Separator && id[|user| + 1..] == room
    ensures Separator in id
  {
    user + [Separator] + room
  }

  /**
   * Decodes a client identity into (room, user): the user is the text before
   * the first '@' and the room the text between the first '@' and the next
   * one (or the end). An identity without '@' has no second piece.
   */
  function ParseClientId(clientId: string): (parsed: (string, string))
    requires Separator in clientId
    ensures Separator !in parsed.0 && Separator !in parsed.1
    ensures var user := parsed.1;
      |user| < |clientId| && clientId[..|user|] == user && clientId[|user|] == Separator
    ensures var (room, user) := parsed; var start := |user| + 1;
      && start + |room| <= |clientId|
      && clientId[start..start + |room|] == room
      && (start + |room| == |clientId| || clientId[start + |room|] == Separator)
  {
    var from := Split(clientId, Separator);
    JoinWithFirstTwo(from, Separator);
    (from[1], from[0])
  }

  /**
   * Decoding an encoded identity whose user has no '@' gives the user back and
   * only the part of the room before its first '@'.
   */
  lemma ParseMakeClientId(room: string, user: string)
    requires Separator !in user
    ensures ParseClientId(MakeClientId(room, user)) == (Split(room, Separator)[0], user)
  {
    SplitAfterPrefix(user, room, Separator);
    assert MakeClientId(room, user) == user + [Separator] + room;
  }

  /** Encoding then decoding is the identity exactly when neither part contains '@'. */
  lemma ClientIdRoundTrip(room: string, user: string)
    ensures ParseClientId(MakeClientId(room, user)) == (room, user) <==> Separator !in room && Separator !in user
  {
    if Separator !in room && Separator !in user {
      ParseMakeClientId(room, user);
      SplitWithoutSeparator(room, Separator);
    }
  }
}
