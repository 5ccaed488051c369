/**
 * The Git remote URL parser of the project generator and the validation
 * around it. The regular expression of `parseGitRemoteUrl`,
 *
 *   (?:git@|https:\/\/)([\w\.@:]+)[\/:]([\w,.,-]+)\/([\w,.,-]+?)(\.git)?$
 *
 * is modelled twice: as a relation between a URL and a decomposition of
 * it (`IsRegexMatch`, with `IsLazy` for the lazy repository group), and as
 * a deterministic parser (`ParseGitRemoteUrl`). The two are proved to
 * agree in both directions.
 *
 * Reading the remote URL with `git config` is not part of this model: the
 * URL is an input.
 */
module GitHelper {
  import opened Strings

  /** `[\w\.@:]`, the host class. */
  predicate IsHostChar(c: char) { IsWordChar(c) || c == '.' || c == '@' || c == ':' }

  /** `[\w,.,-]`, the class of the owner and repository groups. */
  predicate IsNameChar(c: char) { IsWordChar(c) || c == ',' || c == '.' || c == '-' }

  /** `[\/:]`, the separator between host and owner. */
  predicate IsSeparator(c: char) { c == '/' || c == ':' }

  predicate IsSlash(c: char) { c == '/' }

  predicate AllHostChars(s: string) { forall k :: 0 <= k < |s| ==> IsHostChar(s[k]) }
  predicate AllNameChars(s: string) { forall k :: 0 <= k < |s| ==> IsNameChar(s[k]) }

  const GitAt: string := "git@"
  const Https: string := "https://"
  const GitSuffix: string := ".git"

  /** `pre` occurs in `s` at position `p`. */
  predicate OccursAt(pre: string, s: string, p: nat) {
    p + |pre| <= |s| && s[p..p + |pre|] == pre
  }

  // ---------------------------------------------------------------------
  // The regular expression as a relation
  // ---------------------------------------------------------------------

  /**
   * One way the pattern can match `url`: from position `start`, the prefix
   * (`git@` or `https://`), the host, the separator, the owner, `/`, the
   * repository and an optional `.git`, up to the end of the input.
   */
  datatype Match = Match(start: nat, prefix: string, host: string, sep: char, owner: string, repo: string, suffix: string)

  predicate IsRegexMatch(url: string, m: Match) {
    && (m.prefix == GitAt || m.prefix == Https)
    && m.host != [] && AllHostChars(m.host)
    && IsSeparator(m.sep)
    && m.owner != [] && AllNameChars(m.owner)
    && m.repo != [] && AllNameChars(m.repo)
    && (m.suffix == [] || m.suffix == GitSuffix)
    && m.start <= |url|
    && url[m.start..] == m.prefix + m.host + [m.sep] + m.owner + "/" + m.repo + m.suffix
  }

  /**
   * The repository group is lazy: it is the shortest one that lets the
   * rest match, so a trailing `.git` goes to the optional group whenever
   * something is left in front of it.
   */
  predicate IsLazy(m: Match) {
    m.suffix == GitSuffix || !(|m.repo| > |GitSuffix| && EndsWith(m.repo, GitSuffix))
  }

  // ---------------------------------------------------------------------
  // The deterministic parser
  // ---------------------------------------------------------------------

  /** The last position of `s` whose character satisfies `f`. */
  function LastWhere(s: string, f: char -> bool): (r: Option<nat>)
    ensures r.Some? ==> r.value < |s| && f(s[r.value]) && forall k :: r.value < k < |s| ==> !f(s[k])
    ensures r.None? ==> forall k :: 0 <= k < |s| ==> !f(s[k])
  {
    if s == [] then None
    else if f(s[|s| - 1]) then Some(|s| - 1)
    else LastWhere(s[..|s| - 1], f)
  }

  /**
   * A match can start at `p` when the host ends at `hostEnd`: one of the
   * prefixes occurs at `p` and a non-empty run of host characters follows
   * it up to `hostEnd`.
   */
  predicate IsHostStart(url: string, p: nat, hostEnd: nat)
    requires hostEnd <= |url|
  {
    || (OccursAt(GitAt, url, p) && p + |GitAt| < hostEnd && AllHostChars(url[p + |GitAt|..hostEnd]))
    || (OccursAt(Https, url, p) && p + |Https| < hostEnd && AllHostChars(url[p + |Https|..hostEnd]))
  }

  /** The leftmost start at or after `p`, as the regular-expression engine tries them. */
  function FindHostStart(url: string, p: nat, hostEnd: nat): (r: Option<nat>)
    requires hostEnd <= |url|
    ensures r.Some? ==> p <= r.value && IsHostStart(url, r.value, hostEnd)
    ensures r.Some? ==> forall q :: p <= q < r.value ==> !IsHostStart(url, q, hostEnd)
    ensures r.None? ==> forall q :: p <= q ==> !IsHostStart(url, q, hostEnd)
    decreases hostEnd - p
  {
    if hostEnd <= p then None
    else if IsHostStart(url, p, hostEnd) then Some(p)
    else FindHostStart(url, p + 1, hostEnd)
  }

  /** The repository group: the tail without one trailing `.git`, unless that would leave it empty. */
  function StripGitSuffix(tail: string): (repo: string)
    ensures tail != [] ==> repo != []
    ensures IsPrefix(repo, tail)
    ensures repo == tail || tail == repo + GitSuffix
  {
    if |tail| > |GitSuffix| && EndsWith(tail, GitSuffix) then tail[..|tail| - |GitSuffix|] else tail
  }

  /** What `parseGitRemoteUrl` returns. */
  datatype RemoteDetails = RemoteDetails(gitOwner: Option<string>, gitRepoName: Option<string>)

  const NoMatch: RemoteDetails := RemoteDetails(None, None)

  /**
   * parseGitRemoteUrl: the owner and repository groups of the match, or
   * neither. The repository follows the last `/`; the owner sits between
   * the last `/` or `:` before that and it; some prefix must start a host
   * run that ends at that separator. (A successful match always has all
   * its groups, so the `match.length < 4` test of `parseGitRemoteUrl` never fires.)
   */
  function ParseGitRemoteUrl(gitRemoteUrl: string): (r: RemoteDetails)
    ensures r.gitOwner.Some? <==> r.gitRepoName.Some?
    ensures r.gitOwner.Some? ==>
      && r.gitOwner.value != [] && AllNameChars(r.gitOwner.value)
      && r.gitRepoName.value != [] && AllNameChars(r.gitRepoName.value)
  {
    match LastWhere(gitRemoteUrl, IsSlash)
    case None => NoMatch
    case Some(j) => ParseBeforeSlash(gitRemoteUrl, j)
  }

  /** The parse once the last `/` is known to be at `j`: the tail is the repository and an optional `.git`. */
  function ParseBeforeSlash(url: string, j: nat): (r: RemoteDetails)
    requires j < |url|
    ensures r.gitOwner.Some? <==> r.gitRepoName.Some?
    ensures r.gitOwner.Some? ==>
      && r.gitOwner.value != [] && AllNameChars(r.gitOwner.value)
      && r.gitRepoName.value != [] && AllNameChars(r.gitRepoName.value)
  {
    var tail := url[j + 1..];
    if tail == [] || !AllNameChars(tail) then NoMatch
    else
      match LastWhere(url[..j], IsSeparator)
      case None => NoMatch
      case Some(i) => ParseHost(url, i, j)
  }

  /** The parse once the owner is known to lie between `i` and `j`: some host must end at `i`. */
  function ParseHost(url: string, i: nat, j: nat): (r: RemoteDetails)
    requires i < j < |url| && AllNameChars(url[j + 1..]) && url[j + 1..] != []
    ensures r.gitOwner.Some? <==> r.gitRepoName.Some?
    ensures r.gitOwner.Some? ==>
      && r.gitOwner.value != [] && AllNameChars(r.gitOwner.value)
      && r.gitRepoName.value != [] && AllNameChars(r.gitRepoName.value)
  {
    var owner := url[i + 1..j];
    if owner == [] || !AllNameChars(owner) then NoMatch
    else if FindHostStart(url, 0, i).None? then NoMatch
    else
      var tail := url[j + 1..];
      var repo := StripGitSuffix(tail);
      assert AllNameChars(repo) by {
        assert forall k :: 0 <= k < |repo| ==> repo[k] == tail[k];
      }
      RemoteDetails(Some(owner), Some(repo))
  }

  // ---------------------------------------------------------------------
  // Parser and relation agree
  // ---------------------------------------------------------------------

  /** The positions of the pieces of `url[start..] == pre + host + [sep] + owner + "/" + tail`. */
  lemma PiecesOf(url: string, start: nat, pre: string, host: string, sep: char, owner: string, tail: string)
    requires start <= |url| && url[start..] == pre + host + [sep] + owner + "/" + tail
    ensures var i := start + |pre| + |host|; var j := i + 1 + |owner|;
      && j < |url| && url[j] == '/' && url[i] == sep
      && url[j + 1..] == tail && url[i + 1..j] == owner && url[start + |pre|..i] == host
      && OccursAt(pre, url, start)
  {
    var rest := url[start..];
    var h := |pre|;
    var o := h + |host| + 1;
    assert rest == pre + host + [sep] + owner + "/" + tail;
    assert rest[..h] == pre;
    assert rest[h..o - 1] == host;
    assert rest[o - 1] == sep;
    assert rest[o..o + |owner|] == owner;
    assert rest[o + |owner|] == '/';
    assert rest[o + |owner| + 1..] == tail;
  }

  /** And back: a URL is its pieces around two positions. */
  lemma PiecesJoin(url: string, start: nat, k: nat, i: nat, j: nat)
    requires start + k <= i < j < |url| && url[j] == '/'
    ensures url[start..] == url[start..start + k] + url[start + k..i] + [url[i]] + url[i + 1..j] + "/" + url[j + 1..]
  {
    assert url[start..] == url[start..start + k] + url[start + k..i] + url[i..i + 1] + url[i + 1..j] + url[j..j + 1] + url[j + 1..];
  }

  /** Only name characters follow the owner, none of them a `/` or `:`. */
  lemma NameCharsAreNoSeparators(s: string)
    requires AllNameChars(s)
    ensures forall k :: 0 <= k < |s| ==> !IsSeparator(s[k]) && !IsSlash(s[k])
  {
  }

  lemma NameTail(repo: string, suffix: string)
    requires AllNameChars(repo) && (suffix == [] || suffix == GitSuffix)
    ensures AllNameChars(repo + suffix)
  {
    assert AllNameChars(GitSuffix);
    var t := repo + suffix;
    forall k | 0 <= k < |t| ensures IsNameChar(t[k]) {
      if k < |repo| { assert t[k] == repo[k]; } else { assert t[k] == suffix[k - |repo|]; }
    }
  }

  /** The lazy repository group is the tail with its `.git` stripped. */
  lemma StripOfLazy(repo: string, suffix: string)
    requires repo != [] && (suffix == [] || suffix == GitSuffix)
    requires suffix == GitSuffix || !(|repo| > |GitSuffix| && EndsWith(repo, GitSuffix))
    ensures StripGitSuffix(repo + suffix) == repo
  {
    var tail := repo + suffix;
    if suffix == [] {
      assert tail == repo;
    } else {
      assert tail[|tail| - |GitSuffix|..] == GitSuffix;
      assert tail[..|tail| - |GitSuffix|] == repo;
    }
  }

  lemma {:induction false} LastWhereUnique(s: string, f: char -> bool, j: nat)
    requires j < |s| && f(s[j]) && forall k :: j < k < |s| ==> !f(s[k])
    ensures LastWhere(s, f) == Some(j)
  {
    if j < |s| - 1 {
      var t := s[..|s| - 1];
      assert forall k :: j < k < |t| ==> t[k] == s[k];
      LastWhereUnique(t, f, j);
    }
  }

  /** The stages of the parser, when it succeeds: the last `/`, the separator before it, a host start. */
  predicate ParsedAt(url: string, p: nat, i: nat, j: nat) {
    && i < j < |url|
    && LastWhere(url, IsSlash) == Some(j)
    && url[j + 1..] != [] && AllNameChars(url[j + 1..])
    && LastWhere(url[..j], IsSeparator) == Some(i)
    && url[i + 1..j] != [] && AllNameChars(url[i + 1..j])
    && FindHostStart(url, 0, i) == Some(p)
  }

  lemma ParseStages(url: string) returns (p: nat, i: nat, j: nat)
    requires ParseGitRemoteUrl(url).gitOwner.Some?
    ensures ParsedAt(url, p, i, j)
    ensures ParseGitRemoteUrl(url) == RemoteDetails(Some(url[i + 1..j]), Some(StripGitSuffix(url[j + 1..])))
  {
    j := LastWhere(url, IsSlash).value;
    i := HostStage(url, j);
    p := FindHostStart(url, 0, i).value;
  }

  lemma HostStage(url: string, j: nat) returns (i: nat)
    requires j < |url| && ParseBeforeSlash(url, j).gitOwner.Some?
    ensures i < j && url[j + 1..] != [] && AllNameChars(url[j + 1..])
    ensures LastWhere(url[..j], IsSeparator) == Some(i)
    ensures ParseBeforeSlash(url, j) == ParseHost(url, i, j)
  {
    i := LastWhere(url[..j], IsSeparator).value;
  }

  lemma ParseOfStages(url: string, p: nat, i: nat, j: nat)
    requires ParsedAt(url, p, i, j)
    ensures ParseGitRemoteUrl(url) == RemoteDetails(Some(url[i + 1..j]), Some(StripGitSuffix(url[j + 1..])))
  {
  }

  lemma SlashPosition(url: string, j: nat)
    requires j < |url| && url[j] == '/' && AllNameChars(url[j + 1..])
    ensures LastWhere(url, IsSlash) == Some(j)
  {
    var tail := url[j + 1..];
    NameCharsAreNoSeparators(tail);
    assert forall k :: j < k < |url| ==> url[k] == tail[k - j - 1];
    LastWhereUnique(url, IsSlash, j);
  }

  lemma SeparatorPosition(url: string, i: nat, j: nat)
    requires i < j <= |url| && IsSeparator(url[i]) && AllNameChars(url[i + 1..j])
    ensures LastWhere(url[..j], IsSeparator) == Some(i)
  {
    var owner := url[i + 1..j];
    var before := url[..j];
    NameCharsAreNoSeparators(owner);
    assert forall k :: i < k < j ==> before[k] == owner[k - i - 1];
    LastWhereUnique(before, IsSeparator, i);
  }

  /** The host condition from the pieces of a match. */
  lemma HostStartOf(url: string, start: nat, prefix: string, i: nat)
    requires prefix == GitAt || prefix == Https
    requires OccursAt(prefix, url, start) && start + |prefix| < i <= |url| && AllHostChars(url[start + |prefix|..i])
    ensures IsHostStart(url, start, i)
  {
  }

  /** The parse when a lazy match has its separator at `i` and its last `/` at `j`. */
  lemma ParseAtPositions(url: string, start: nat, i: nat, j: nat, repo: string, suffix: string)
    requires i < j < |url| && url[j] == '/' && IsSeparator(url[i])
    requires url[i + 1..j] != [] && AllNameChars(url[i + 1..j])
    requires IsHostStart(url, start, i)
    requires repo != [] && AllNameChars(repo) && (suffix == [] || suffix == GitSuffix)
    requires suffix == GitSuffix || !(|repo| > |GitSuffix| && EndsWith(repo, GitSuffix))
    requires url[j + 1..] == repo + suffix
    ensures ParseGitRemoteUrl(url) == RemoteDetails(Some(url[i + 1..j]), Some(repo))
  {
    NameTail(repo, suffix);
    SlashPosition(url, j);
    SeparatorPosition(url, i, j);
    var p := FindHostStart(url, 0, i).value;
    ParseOfStages(url, p, i, j);
    StripOfLazy(repo, suffix);
  }

  /**
   * Every match the engine would report (a match whose repository group is
   * lazy) is what the parser returns.
   */
  lemma ParseComplete(url: string, m: Match)
    requires IsRegexMatch(url, m) && IsLazy(m)
    ensures ParseGitRemoteUrl(url) == RemoteDetails(Some(m.owner), Some(m.repo))
  {
    var tail := m.repo + m.suffix;
    assert url[m.start..] == m.prefix + m.host + [m.sep] + m.owner + "/" + tail;
    PiecesOf(url, m.start, m.prefix, m.host, m.sep, m.owner, tail);
    var i := m.start + |m.prefix| + |m.host|;
    var j := i + 1 + |m.owner|;
    var owner := url[i + 1..j];
    assert owner == m.owner;
    HostStartOf(url, m.start, m.prefix, i);
    ParseAtPositions(url, m.start, i, j, m.repo, m.suffix);
    assert ParseGitRemoteUrl(url) == RemoteDetails(Some(owner), Some(m.repo));
  }

  /** Which prefix starts the host at `p`. */
  lemma PrefixAt(url: string, p: nat, i: nat) returns (prefix: string)
    requires i <= |url| && IsHostStart(url, p, i)
    ensures prefix == GitAt || prefix == Https
    ensures OccursAt(prefix, url, p) && p + |prefix| < i && AllHostChars(url[p + |prefix|..i])
  {
    prefix := if OccursAt(GitAt, url, p) && p + |GitAt| < i && AllHostChars(url[p + |GitAt|..i]) then GitAt else Https;
  }

  /** The pieces of a match put together again. */
  lemma MatchOfPieces(url: string, p: nat, prefix: string, i: nat, j: nat, repo: string, suffix: string) returns (m: Match)
    requires prefix == GitAt || prefix == Https
    requires OccursAt(prefix, url, p) && p + |prefix| < i < j < |url| && AllHostChars(url[p + |prefix|..i])
    requires IsSeparator(url[i]) && url[j] == '/'
    requires url[i + 1..j] != [] && AllNameChars(url[i + 1..j])
    requires repo != [] && AllNameChars(repo) && (suffix == [] || suffix == GitSuffix)
    requires url[j + 1..] == repo + suffix
    ensures IsRegexMatch(url, m)
    ensures m == Match(p, prefix, url[p + |prefix|..i], url[i], url[i + 1..j], repo, suffix)
  {
    PiecesJoin(url, p, |prefix|, i, j);
    m := Match(p, prefix, url[p + |prefix|..i], url[i], url[i + 1..j], repo, suffix);
  }

  /** The match the stages of a successful parse describe. */
  lemma MatchOfStages(url: string, p: nat, i: nat, j: nat) returns (m: Match)
    requires ParsedAt(url, p, i, j)
    ensures IsRegexMatch(url, m) && IsLazy(m)
    ensures m.owner == url[i + 1..j] && m.repo == StripGitSuffix(url[j + 1..])
  {
    var tail := url[j + 1..];
    var prefix := PrefixAt(url, p, i);
    var repo := StripGitSuffix(tail);
    var suffix := tail[|repo|..];
    assert tail == repo + suffix;
    assert AllNameChars(repo) by {
      assert forall k :: 0 <= k < |repo| ==> repo[k] == tail[k];
    }
    assert IsSeparator(url[i]) by {
      assert url[..j][i] == url[i];
    }
    m := MatchOfPieces(url, p, prefix, i, j, repo, suffix);
  }

  /** Every result the parser returns comes from a lazy match of the pattern. */
  lemma ParseSound(url: string) returns (m: Match)
    requires ParseGitRemoteUrl(url).gitOwner.Some?
    ensures IsRegexMatch(url, m) && IsLazy(m)
    ensures ParseGitRemoteUrl(url) == RemoteDetails(Some(m.owner), Some(m.repo))
  {
    var p, i, j := ParseStages(url);
    m := MatchOfStages(url, p, i, j);
  }

  /** Every match has a lazy counterpart with the same owner: the pattern matches exactly when a lazy match exists. */
  lemma LazyMatchExists(url: string, m: Match) returns (lazy: Match)
    requires IsRegexMatch(url, m)
    ensures IsRegexMatch(url, lazy) && IsLazy(lazy) && lazy.owner == m.owner
  {
    if IsLazy(m) {
      lazy := m;
    } else {
      var repo := m.repo[..|m.repo| - |GitSuffix|];
      lazy := m.(repo := repo, suffix := GitSuffix);
      assert m.repo == repo + GitSuffix;
      assert AllNameChars(repo) by {
        assert forall k :: 0 <= k < |repo| ==> repo[k] == m.repo[k];
      }
      assert m.repo + m.suffix == repo + GitSuffix;
    }
  }

  // ---------------------------------------------------------------------
  // The usual shapes of a remote URL, and one the pattern refuses
  // ---------------------------------------------------------------------

  /** An SSH remote, `git@HOST:OWNER/REPO.git`, gives its owner and repository. */
  lemma SshRemote(host: string, owner: string, repo: string)
    requires host != [] && AllHostChars(host)
    requires owner != [] && AllNameChars(owner) && repo != [] && AllNameChars(repo)
    ensures ParseGitRemoteUrl(GitAt + host + ":" + owner + "/" + repo + GitSuffix) == RemoteDetails(Some(owner), Some(repo))
  {
    var url := GitAt + host + ":" + owner + "/" + repo + GitSuffix;
    var m := Match(0, GitAt, host, ':', owner, repo, GitSuffix);
    assert url[m.start..] == url;
    ParseComplete(url, m);
  }

  /**
   * An HTTPS remote, `https://HOST/OWNER/REPO` with or without `.git`,
   * gives its owner and repository.
   */
  lemma HttpsRemote(host: string, owner: string, repo: string, suffix: string)
    requires host != [] && AllHostChars(host)
    requires owner != [] && AllNameChars(owner) && repo != [] && AllNameChars(repo)
    requires suffix == GitSuffix || (suffix == [] && !EndsWith(repo, GitSuffix))
    ensures ParseGitRemoteUrl(Https + host + "/" + owner + "/" + repo + suffix) == RemoteDetails(Some(owner), Some(repo))
  {
    var url := Https + host + "/" + owner + "/" + repo + suffix;
    var m := Match(0, Https, host, '/', owner, repo, suffix);
    assert url[m.start..] == url;
    ParseComplete(url, m);
  }

  /** Where each prefix breaks a host run: `git@` holds an `@`, `https://` a `/`. */
  lemma PrefixBreak(prefix: string) returns (idx: nat)
    requires prefix == GitAt || prefix == Https
    ensures idx < |prefix| && (prefix[idx] == '@' || !IsHostChar(prefix[idx]))
    ensures forall k :: 0 <= k < |prefix| ==> prefix[k] != '-'
  {
    idx := if prefix == GitAt then 3 else 6;
  }

  /**
   * No host run that ends at `i` can start with a prefix when a `-` sits at
   * `h` and only host characters other than `@` lie between them.
   */
  lemma NoPrefixAcrossHyphen(url: string, prefix: string, q: nat, h: nat, i: nat)
    requires prefix == GitAt || prefix == Https
    requires h < i <= |url| && url[h] == '-'
    requires forall k :: h < k < i ==> IsHostChar(url[k]) && url[k] != '@'
    ensures !(OccursAt(prefix, url, q) && q + |prefix| < i && AllHostChars(url[q + |prefix|..i]))
  {
    var idx := PrefixBreak(prefix);
    var n := |prefix|;
    if q + n <= h {
      assert url[q + n..i][h - q - n] == '-';
    } else if q <= h {
      if q + n <= |url| {
        assert url[q..q + n][h - q] == '-';
      }
    } else if q + n < i {
      assert url[q..q + n][idx] == url[q + idx];
    }
  }

  /**
   * A host name with a hyphen is refused: the host class of the pattern has
   * no `-`, so `git@my-host.example:owner/repo` does not parse.
   */
  lemma HyphenatedHostRefused(prefix: string, host1: string, host2: string, sep: char, owner: string, tail: string)
    requires prefix == GitAt || prefix == Https
    requires AllHostChars(host2) && '@' !in host2
    requires IsSeparator(sep) && AllNameChars(owner) && AllNameChars(tail)
    ensures ParseGitRemoteUrl(prefix + (host1 + "-" + host2) + [sep] + owner + "/" + tail) == NoMatch
  {
    var host := host1 + "-" + host2;
    var url := prefix + host + [sep] + owner + "/" + tail;
    assert url[0..] == url;
    PiecesOf(url, 0, prefix, host, sep, owner, tail);
    var h := |prefix| + |host1|;
    var i := |prefix| + |host|;
    var j := i + 1 + |owner|;
    assert url[h] == host[|host1|] == '-';
    assert forall k :: h < k < i ==> url[k] == host2[k - h - 1];
    NoHostStartAfterHyphen(url, h, i);
    RefusedWithoutHost(url, i, j);
  }

  lemma NoHostStartAfterHyphen(url: string, h: nat, i: nat)
    requires h < i <= |url| && url[h] == '-'
    requires forall k :: h < k < i ==> IsHostChar(url[k]) && url[k] != '@'
    ensures FindHostStart(url, 0, i).None?
  {
    forall q | 0 <= q
      ensures !IsHostStart(url, q, i)
    {
      NoPrefixAcrossHyphen(url, GitAt, q, h, i);
      NoPrefixAcrossHyphen(url, Https, q, h, i);
    }
  }

  /** Without a host ending at the separator before the last `/`, nothing parses. */
  lemma RefusedWithoutHost(url: string, i: nat, j: nat)
    requires i < j < |url| && url[j] == '/' && IsSeparator(url[i])
    requires AllNameChars(url[i + 1..j]) && AllNameChars(url[j + 1..])
    requires FindHostStart(url, 0, i).None?
    ensures ParseGitRemoteUrl(url) == NoMatch
  {
    SlashPosition(url, j);
    SeparatorPosition(url, i, j);
  }

  // ---------------------------------------------------------------------
  // getGitRepositoryDetails
  // ---------------------------------------------------------------------

  datatype Result<T> = Success(value: T) | Failure(error: string)

  datatype RepositoryDetails = RepositoryDetails(gitOwner: string, gitRepoName: string)

  const ParseError: string := "Unable to parse Git repository URL"

  /**
   * getGitRepositoryDetails with the remote URL as input: the parsed owner
   * and repository, or the parse error when either is missing or empty.
   */
  function GetGitRepositoryDetails(gitRemoteUrl: string): (r: Result<RepositoryDetails>)
    ensures var parsed := ParseGitRemoteUrl(gitRemoteUrl);
      && (r.Success? <==> Truthy(parsed.gitOwner) && Truthy(parsed.gitRepoName))
      && (r.Success? ==> r.value == RepositoryDetails(parsed.gitOwner.value, parsed.gitRepoName.value))
      && (r.Failure? ==> r.error == ParseError)
  {
    var parsed := ParseGitRemoteUrl(gitRemoteUrl);
    if !Truthy(parsed.gitOwner) || !Truthy(parsed.gitRepoName) then Failure(ParseError)
    else Success(RepositoryDetails(parsed.gitOwner.value, parsed.gitRepoName.value))
  }

  /**
   * The emptiness half of the check never fires on its own: the call fails
   * exactly when the pattern does not match, and a success carries the
   * groups of the engine's match.
   */
  lemma RepositoryDetailsExactlyOnMatch(url: string)
    ensures GetGitRepositoryDetails(url).Success? <==> exists m :: IsRegexMatch(url, m)
    ensures GetGitRepositoryDetails(url).Success? ==>
      var d := GetGitRepositoryDetails(url).value;
      d.gitOwner != [] && AllNameChars(d.gitOwner) && d.gitRepoName != [] && AllNameChars(d.gitRepoName)
  {
    if GetGitRepositoryDetails(url).Success? {
      var m := ParseSound(url);
    } else if exists m :: IsRegexMatch(url, m) {
      var m :| IsRegexMatch(url, m);
      var lazy := LazyMatchExists(url, m);
      ParseComplete(url, lazy);
    }
  }
}
