/** The text layer of the proxy-mesh loader: how a line read with std::getline is
    seen through the C string functions the loader applies to it (strncmp, and
    strtok with the delimiter string " "). */
module ObjText {
  import opened Wrappers

  /** The C string that a std::string's buffer denotes: everything before the first NUL. */
  function CStr(line: string): (r: string)
    ensures |r| <= |line| && r == line[..|r|]
    ensures forall k :: 0 <= k < |r| ==> r[k] != '\0'
    ensures |r| < |line| ==> line[|r|] == '\0'
  {
    if line == [] || line[0] == '\0' then [] else [line[0]] + CStr(line[1..])
  }

  predicate NoNul(s: string)
  {
    forall k :: 0 <= k < |s| ==> s[k] != '\0'
  }

  /** A line without NUL characters is its own C string. */
  lemma {:induction false} CStrOfNoNul(s: string)
    requires NoNul(s)
    ensures CStr(s) == s
  {
    if s != [] {
      CStrOfNoNul(s[1..]);
    }
  }

  /** A word as strtok returns it: non-empty and free of the delimiter. */
  predicate IsWord(t: string)
  {
    t != [] && forall k :: 0 <= k < |t| ==> t[k] != ' '
  }

  /** Length of the run of non-space characters at the start of `s`. */
  function WordLength(s: string): (n: nat)
    ensures n <= |s|
    ensures forall k :: 0 <= k < n ==> s[k] != ' '
    ensures n == |s| || s[n] == ' '
  {
    if s == [] || s[0] == ' ' then 0 else 1 + WordLength(s[1..])
  }

  /** The words that successive strtok(..., " ") calls return for `s`, in order.
      Only the space character delimits, and a run of spaces (leading, trailing or
      repeated) produces no empty word. */
  function Tokens(s: string): seq<string>
    decreases |s|
  {
    if s == [] then []
    else if s[0] == ' ' then Tokens(s[1..])
    else [s[..WordLength(s)]] + Tokens(s[WordLength(s)..])
  }

  /** The characters of `s` that are not spaces, in order. */
  function NonSpace(s: string): string
  {
    if s == [] then [] else (if s[0] == ' ' then [] else [s[0]]) + NonSpace(s[1..])
  }

  function Concat(ts: seq<string>): string
  {
    if ts == [] then [] else ts[0] + Concat(ts[1..])
  }

  /** Words written out with one space between neighbours: the inverse of Tokens on words. */
  function JoinWords(ts: seq<string>): string
  {
    if ts == [] then [] else if |ts| == 1 then ts[0] else ts[0] + " " + JoinWords(ts[1..])
  }

  /** Every token strtok yields is a word. */
  lemma {:induction false} TokensAreWords(s: string)
    ensures forall k :: 0 <= k < |Tokens(s)| ==> IsWord(Tokens(s)[k])
    decreases |s|
  {
    if s == [] {
    } else if s[0] == ' ' {
      TokensAreWords(s[1..]);
    } else {
      TokensAreWords(s[WordLength(s)..]);
    }
  }

  /** Tokenising loses only the spaces: the tokens put back together are the
      non-space characters of the line, in order. */
  lemma {:induction false} TokensKeepText(s: string)
    ensures Concat(Tokens(s)) == NonSpace(s)
    decreases |s|
  {
    if s == [] {
    } else if s[0] == ' ' {
      TokensKeepText(s[1..]);
    } else {
      var n := WordLength(s);
      TokensKeepText(s[n..]);
      NonSpaceOfWordPrefix(s, n);
      assert Tokens(s) == [s[..n]] + Tokens(s[n..]);
      assert Tokens(s)[1..] == Tokens(s[n..]);
    }
  }

  lemma {:induction false} NonSpaceOfWordPrefix(s: string, n: nat)
    requires n <= |s|
    requires forall k :: 0 <= k < n ==> s[k] != ' '
    ensures NonSpace(s) == s[..n] + NonSpace(s[n..])
    decreases n
  {
    if n > 0 {
      NonSpaceOfWordPrefix(s[1..], n - 1);
      assert s[1..][n - 1..] == s[n..];
      assert [s[0]] + s[1..][..n - 1] == s[..n];
    }
  }

  /** A maximal run of non-spaces is the one WordLength measures. */
  lemma {:induction false} WordLengthIsMaximalRun(s: string, n: nat)
    requires n <= |s|
    requires forall k :: 0 <= k < n ==> s[k] != ' '
    requires n == |s| || s[n] == ' '
    ensures WordLength(s) == n
    decreases n
  {
    if n > 0 {
      WordLengthIsMaximalRun(s[1..], n - 1);
    }
  }

  /** The tokens of `s` from position `i`, when a word occupies [i, j). */
  lemma WordThenRest(s: string, i: nat, j: nat)
    requires i < j <= |s|
    requires forall k :: i <= k < j ==> s[k] != ' '
    requires j == |s| || s[j] == ' '
    ensures Tokens(s[i..]) == [s[i..j]] + Tokens(s[j..])
  {
    var t := s[i..];
    WordLengthIsMaximalRun(t, j - i);
    assert t[..j - i] == s[i..j];
    assert t[j - i..] == s[j..];
  }

  /** Round trip: splitting words written out with spaces gives the words back. */
  lemma {:induction false} TokensOfJoinWords(ts: seq<string>)
    requires forall k :: 0 <= k < |ts| ==> IsWord(ts[k])
    ensures Tokens(JoinWords(ts)) == ts
  {
    if |ts| == 1 {
      var s := ts[0];
      WordThenRest(s, 0, |s|);
      assert s[0..] == s && s[..|s|] == s && s[|s|..] == [];
    } else if |ts| > 1 {
      var s := JoinWords(ts);
      var n := |ts[0]|;
      assert s == ts[0] + (" " + JoinWords(ts[1..]));
      assert s[..n] == ts[0];
      WordThenRest(s, 0, n);
      assert s[0..] == s;
      assert s[n..][1..] == JoinWords(ts[1..]);
      TokensOfJoinWords(ts[1..]);
    }
  }

  lemma {:induction false} JoinWordsNoNul(ts: seq<string>)
    requires forall k :: 0 <= k < |ts| ==> NoNul(ts[k])
    ensures NoNul(JoinWords(ts))
  {
    if |ts| > 1 {
      JoinWordsNoNul(ts[1..]);
      assert JoinWords(ts) == ts[0] + " " + JoinWords(ts[1..]);
    }
  }

  /** One strtok(NULL, " ") step over the buffer `s` whose saved position is `pos`:
      it skips spaces and returns the next word (None standing for NULL) together with
      the saved position for the next call, just past the delimiter that ended the word. */
  method StrTok(s: string, pos: nat) returns (token: Option<string>, next: nat)
    requires pos <= |s|
    ensures pos <= next <= |s|
    ensures token.None? <==> Tokens(s[pos..]) == []
    ensures token.Some? ==> Tokens(s[pos..]) == [token.value] + Tokens(s[next..])
  {
    var i := SkipSpaces(s, pos);
    if i == |s| {
      return None, i;
    }
    var j := WordEnd(s, i);
    WordThenRest(s, i, j);
    token := Some(s[i..j]);
    if j < |s| {
      assert s[j..][1..] == s[j + 1..];
      next := j + 1;
    } else {
      next := j;
    }
  }

  /** One strtok(NULL, " ") call for a caller that knows the words left: it returns
      word k of `words`, or NULL when all of them have been returned. */
  method NextWord(s: string, pos: nat, ghost words: seq<string>, ghost k: nat) returns (token: Option<string>, next: nat)
    requires pos <= |s| && k <= |words| && Tokens(s[pos..]) == words[k..]
    ensures next <= |s|
    ensures token.None? <==> k == |words|
    ensures token.Some? ==> k < |words| && token.value == words[k] && Tokens(s[next..]) == words[k + 1..]
  {
    token, next := StrTok(s, pos);
    if token.Some? {
      assert words[k..][1..] == words[k + 1..];
    }
  }

  /** The first position at or after `pos` that is not a space; skipping spaces
      changes no token. */
  method SkipSpaces(s: string, pos: nat) returns (i: nat)
    requires pos <= |s|
    ensures pos <= i <= |s| && (i == |s| || s[i] != ' ')
    ensures Tokens(s[pos..]) == Tokens(s[i..])
  {
    i := pos;
    while i < |s| && s[i] == ' '
      invariant pos <= i <= |s|
      invariant Tokens(s[pos..]) == Tokens(s[i..])
    {
      assert s[i..][1..] == s[i + 1..];
      i := i + 1;
    }
  }

  /** The end of the word that starts at `i`: the next space, or the end of `s`. */
  method WordEnd(s: string, i: nat) returns (j: nat)
    requires i < |s| && s[i] != ' '
    ensures i < j <= |s| && (j == |s| || s[j] == ' ')
    ensures forall k :: i <= k < j ==> s[k] != ' '
  {
    j := i + 1;
    while j < |s| && s[j] != ' '
      invariant i < j <= |s|
      invariant forall k :: i <= k < j ==> s[k] != ' '
    {
      j := j + 1;
    }
  }
}
