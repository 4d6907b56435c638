/** Splitting an image reference `repository[:tag]` into its two parts
    (`ParseRepositoryTag` in misc.go).

    Go strings are byte strings and `strings.LastIndex` / `strings.Contains`
    work on bytes; the two separators involved, ':' and '/', are ASCII and
    never occur inside a multi-byte UTF-8 sequence, so indexing by character,
    as done here, finds the same split. */
module RepositoryTag {

  /** The pair `(repository, tag)` that `ParseRepositoryTag` returns. */
  datatype RepoTag = RepoTag(repository: string, tag: string)

  /** `strings.LastIndex(s, string(c))` for a one-character needle:
      the index of the last occurrence of `c` in `s`, or -1 if there is none. */
  function LastIndexOf(s: string, c: char): (n: int)
    ensures -1 <= n < |s|
    ensures n >= 0 ==> s[n] == c
    ensures forall i :: n < i < |s| ==> s[i] != c
    ensures n == -1 <==> c !in s
  {
    if |s| == 0 then -1
    else if s[|s| - 1] == c then |s| - 1
    else LastIndexOf(s[..|s| - 1], c)
  }

  /** The repository reference split at its last colon, provided that what
      follows that colon contains no '/' (otherwise the colon belongs to a
      registry host:port and there is no tag). */
  function ParseRepositoryTag(repoTag: string): (r: RepoTag)
    ensures ':' !in repoTag ==> r == RepoTag(repoTag, "")
    ensures ':' !in r.tag && '/' !in r.tag
    ensures r == RepoTag(repoTag, "") || repoTag == r.repository + ":" + r.tag
  {
    var n := LastIndexOf(repoTag, ':');
    if n < 0 then
      RepoTag(repoTag, "")
    else
      var tag := repoTag[n + 1..];
      if '/' !in tag then RepoTag(repoTag[..n], tag)
      else RepoTag(repoTag, "")
  }

  /** `s` is `repository + ":" + tag` with a tag that could have been split off. */
  ghost predicate IsTagSplit(s: string, repository: string, tag: string)
  {
    s == repository + ":" + tag && ':' !in tag && '/' !in tag
  }

  /** A colon at `k` with no colon after it is the one `LastIndexOf` finds. */
  lemma LastColonAt(s: string, k: nat)
    requires k < |s| && s[k] == ':' && ':' !in s[k + 1..]
    ensures LastIndexOf(s, ':') == k
  {
  }

  /** Round trip: joining a repository and a tag that has neither ':' nor '/'
      with a colon, and parsing the result, gives the two parts back. So a
      split of the input into such parts, when one exists, is unique and is
      the one returned. */
  lemma ParseJoin(repository: string, tag: string)
    requires ':' !in tag && '/' !in tag
    ensures ParseRepositoryTag(repository + ":" + tag) == RepoTag(repository, tag)
  {
    var s := repository + ":" + tag;
    var k := |repository|;
    assert s[k] == ':';
    assert s[k + 1..] == tag;
    assert s[..k] == repository;
    LastColonAt(s, k);
  }

  /** The whole input comes back as the repository exactly when the input
      admits no split into a repository and a tag. */
  lemma WholeIffNoSplit(s: string)
    ensures ParseRepositoryTag(s).repository == s
            <==> forall repository, tag :: !IsTagSplit(s, repository, tag)
  {
    var r := ParseRepositoryTag(s);
    if r.repository == s {
      forall repository, tag | IsTagSplit(s, repository, tag)
        ensures false
      {
        ParseJoin(repository, tag);
      }
    } else {
      assert IsTagSplit(s, r.repository, r.tag);
    }
  }

  /** A split moves exactly one character, the colon, out of the input. */
  lemma SplitLength(s: string)
    requires ParseRepositoryTag(s) != RepoTag(s, "")
    ensures var r := ParseRepositoryTag(s);
            |r.repository| + 1 + |r.tag| == |s| && s[|r.repository|] == ':'
  {
    var r := ParseRepositoryTag(s);
    assert s == r.repository + ":" + r.tag;
    assert s[|r.repository|] == (r.repository + ":" + r.tag)[|r.repository|];
  }

  /** If the text after the last colon contains a '/', the colon is part of
      the repository (a registry port) and the tag is empty. */
  lemma SlashAfterLastColon(s: string, k: nat)
    requires k < |s| && s[k] == ':' && ':' !in s[k + 1..]
    requires '/' in s[k + 1..]
    ensures ParseRepositoryTag(s) == RepoTag(s, "")
  {
    LastColonAt(s, k);
  }

  /** A trailing colon is dropped and yields an empty tag. */
  lemma TrailingColon(repository: string)
    ensures ParseRepositoryTag(repository + ":") == RepoTag(repository, "")
  {
    ParseJoin(repository, "");
    assert repository + ":" + "" == repository + ":";
  }

  /** First example of the function's documentation: a registry port and a tag. */
  lemma ExampleWithTag()
    ensures ParseRepositoryTag("localhost.localdomain:5000/samalba/hipache:latest")
            == RepoTag("localhost.localdomain:5000/samalba/hipache", "latest")
  {
    var s := "localhost.localdomain:5000/samalba/hipache:latest";
    assert s[43..] == "latest";
    assert s[..42] == "localhost.localdomain:5000/samalba/hipache";
    LastColonAt(s, 42);
  }

  /** Second example of the function's documentation: the only colon is the
      registry port, so there is no tag. */
  lemma ExampleWithoutTag()
    ensures ParseRepositoryTag("localhost.localdomain:5000/samalba/hipache")
            == RepoTag("localhost.localdomain:5000/samalba/hipache", "")
  {
    var s := "localhost.localdomain:5000/samalba/hipache";
    assert s[22..] == "5000/samalba/hipache";
    SlashAfterLastColon(s, 21);
  }

  /** A colon followed by a path is not a tag separator. */
  lemma ExampleColonBeforePath()
    ensures ParseRepositoryTag("a:b/c") == RepoTag("a:b/c", "")
  {
    var s := "a:b/c";
    assert s[2..] == "b/c";
    SlashAfterLastColon(s, 1);
  }
}
