/**
 * The access guard of the bot: the allow-list built from the `ALLOWED_USERS`
 * environment string (main.py line 38) and the membership test of the
 * `restricted` decorator (main.py lines 45-55).
 */
module AccessGuard {
  import opened Wrappers

  /** The separator of the `ALLOWED_USERS` string. */
  const Separator: char := ','

  /** `s.split(",")`: the pieces between separators, empty ones included. */
  function Split(s: string): (pieces: seq<string>)
    ensures |pieces| >= 1
    ensures forall k :: 0 <= k < |pieces| ==> Separator !in pieces[k]
  {
    if s == [] then [[]]
    else
      var rest := Split(s[1..]);
      if s[0] == Separator then [[]] + rest
      else [[s[0]] + rest[0]] + rest[1..]
  }

  /** `",".join(pieces)`: the inverse of `Split`. */
  function Join(pieces: seq<string>): string
    requires |pieces| >= 1
  {
    if |pieces| == 1 then pieces[0] else pieces[0] + [Separator] + Join(pieces[1..])
  }

  /** `filter(None, pieces)`: the non-empty pieces, in order. */
  function NonEmpty(pieces: seq<string>): (kept: seq<string>)
    ensures |kept| <= |pieces|
    ensures forall k :: 0 <= k < |kept| ==> kept[k] != []
  {
    if pieces == [] then []
    else (if pieces[0] == [] then [] else [pieces[0]]) + NonEmpty(pieces[1..])
  }

  /** True when the string names no user at all: it consists of separators only. */
  predicate OnlySeparators(s: string)
  {
    forall k :: 0 <= k < |s| ==> s[k] == Separator
  }

  /**
   * `ALLOWED_USERS`: `int(u)` for every non-empty piece of the environment
   * value, an absent value read as the empty string. The conversion of one
   * piece to an integer is the parameter `parse`.
   */
  function AllowList(env: Option<string>, parse: string -> int): (ids: seq<int>)
    ensures |ids| == |NonEmpty(Split(if env.Some? then env.value else []))|
  {
    var segments := NonEmpty(Split(if env.Some? then env.value else []));
    seq(|segments|, k requires 0 <= k < |segments| => parse(segments[k]))
  }

  /** The test of `restricted`: an empty allow-list admits everyone. */
  predicate Admits(allowed: seq<int>, user: int)
  {
    !(|allowed| > 0 && user !in allowed)
  }

  lemma JoinCons(c: char, pieces: seq<string>, joined: seq<string>)
    requires |pieces| >= 1
    requires joined == [[c] + pieces[0]] + pieces[1..]
    ensures Join(joined) == [c] + Join(pieces)
  {
    assert joined[1..] == pieces[1..];
    if |pieces| > 1 {
      var tail := Join(pieces[1..]);
      assert Join(joined) == joined[0] + [Separator] + tail;
      assert Join(pieces) == pieces[0] + [Separator] + tail;
      assert [c] + (pieces[0] + [Separator] + tail) == ([c] + pieces[0]) + [Separator] + tail;
    }
  }

  /** Splitting loses nothing but the separators: joining the pieces gives the string back. */
  lemma {:induction false} JoinSplit(s: string)
    ensures Join(Split(s)) == s
  {
    if s != [] {
      var rest := Split(s[1..]);
      JoinSplit(s[1..]);
      if s[0] == Separator {
        assert Split(s) == [[]] + rest;
        assert ([[]] + rest)[1..] == rest;
        assert s == [Separator] + s[1..];
      } else {
        JoinCons(s[0], rest, Split(s));
        assert s == [s[0]] + s[1..];
      }
    }
  }

  /** A string survives `filter(None, ...)` exactly when it is one of the pieces and is not empty. */
  lemma {:induction false} NonEmptyMembership(pieces: seq<string>, x: string)
    ensures x in NonEmpty(pieces) <==> x in pieces && x != []
  {
    if pieces != [] {
      NonEmptyMembership(pieces[1..], x);
      assert pieces == [pieces[0]] + pieces[1..];
    }
  }

  lemma {:induction false} SplitNothingKeptIff(s: string)
    ensures NonEmpty(Split(s)) == [] <==> OnlySeparators(s)
  {
    if s != [] {
      var rest := Split(s[1..]);
      SplitNothingKeptIff(s[1..]);
      if s[0] == Separator {
        assert Split(s) == [[]] + rest;
        assert ([[]] + rest)[1..] == rest;
        assert OnlySeparators(s) <==> OnlySeparators(s[1..]) by {
          if OnlySeparators(s[1..]) {
            forall k | 0 <= k < |s| ensures s[k] == Separator {
              if k > 0 { assert s[k] == s[1..][k - 1]; }
            }
          }
        }
      } else {
        assert Split(s)[0] != [];
        assert NonEmpty(Split(s))[0] == Split(s)[0];
      }
    }
  }

  /**
   * An absent environment value, or one holding separators only, gives the
   * empty allow-list, and no other value does.
   */
  lemma AllowListEmptyIff(env: Option<string>, parse: string -> int)
    ensures AllowList(env, parse) == [] <==> env.None? || OnlySeparators(env.value)
  {
    SplitNothingKeptIff(if env.Some? then env.value else []);
  }

  /**
   * The guard admits a user iff the configured string names nobody, or one of
   * its non-empty comma-separated pieces parses to that user's id.
   */
  lemma AdmitsFromEnv(s: string, parse: string -> int, user: int)
    ensures Admits(AllowList(Some(s), parse), user)
        <==> OnlySeparators(s) || exists seg :: seg in Split(s) && seg != [] && parse(seg) == user
  {
    var segments := NonEmpty(Split(s));
    var ids := AllowList(Some(s), parse);
    AllowListEmptyIff(Some(s), parse);
    if user in ids {
      var k :| 0 <= k < |ids| && ids[k] == user;
      NonEmptyMembership(Split(s), segments[k]);
    }
    if exists seg :: seg in Split(s) && seg != [] && parse(seg) == user {
      var seg :| seg in Split(s) && seg != [] && parse(seg) == user;
      NonEmptyMembership(Split(s), seg);
      var k :| 0 <= k < |segments| && segments[k] == seg;
      assert ids[k] == user;
    }
  }

  /** With `ALLOWED_USERS` unset every user passes the guard. */
  lemma UnsetAdmitsEveryone(parse: string -> int, user: int)
    ensures Admits(AllowList(None, parse), user)
  {
    AllowListEmptyIff(None, parse);
  }
}
