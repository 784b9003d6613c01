/** The command line as the program reads it: split into whitespace-separated
    tokens by `istringstream >> string` (processInput), and the query text
    re-assembled from the tokens after the command word (cmdQuery, cmdTest). */
module Input {

  /** The separators `>>` skips in the C locale (isspace). */
  predicate IsSpace(c: char)
  {
    c == ' ' || c == '\t' || c == '\n' || c == '\U{0B}' || c == '\U{0C}' || c == '\r'
  }

  /** What one `>>` extraction can produce: a non-empty run of non-separators. */
  predicate Word(t: string)
  {
    |t| > 0 && forall i :: 0 <= i < |t| ==> !IsSpace(t[i])
  }

  /** Length of the run of non-separators at the start of `s`. */
  function WordLength(s: string): (n: nat)
    ensures n <= |s|
    ensures forall i :: 0 <= i < n ==> !IsSpace(s[i])
    ensures n < |s| ==> IsSpace(s[n])
  {
    if s == [] || IsSpace(s[0]) then 0 else 1 + WordLength(s[1..])
  }

  /** The tokens `while (inputstream >> argument)` extracts from a line. */
  function Tokens(s: string): seq<string>
    decreases |s|
  {
    if s == [] then []
    else if IsSpace(s[0]) then Tokens(s[1..])
    else
      var n := WordLength(s);
      [s[..n]] + Tokens(s[n..])
  }

  /** The tokens joined with one blank between consecutive tokens. */
  function Join(ws: seq<string>): string
  {
    if |ws| == 0 then "" else if |ws| == 1 then ws[0] else ws[0] + " " + Join(ws[1..])
  }

  /** Every token is a word. */
  lemma {:induction false} TokensAreWords(s: string)
    ensures forall t :: t in Tokens(s) ==> Word(t)
    decreases |s|
  {
    if s != [] {
      if IsSpace(s[0]) {
        TokensAreWords(s[1..]);
      } else {
        var n := WordLength(s);
        TokensAreWords(s[n..]);
      }
    }
  }

  lemma WordLengthUnique(s: string, n: nat)
    requires n <= |s|
    requires forall i :: 0 <= i < n ==> !IsSpace(s[i])
    requires n < |s| ==> IsSpace(s[n])
    ensures WordLength(s) == n
  {
  }

  /** A word on its own is one token. */
  lemma TokensOfWord(w: string)
    requires Word(w)
    ensures Tokens(w) == [w]
  {
    WordLengthUnique(w, |w|);
    assert w[..|w|] == w;
    assert w[|w|..] == [];
  }

  /** A separator splits the tokens of a line into those before and after it. */
  lemma {:induction false} TokensSplit(a: string, c: char, b: string)
    requires IsSpace(c)
    ensures Tokens(a + [c] + b) == Tokens(a) + Tokens(b)
    decreases |a|
  {
    var s := a + [c] + b;
    if a == [] {
      assert s[1..] == b;
    } else if IsSpace(a[0]) {
      assert s[1..] == a[1..] + [c] + b;
      TokensSplit(a[1..], c, b);
    } else {
      var m := WordLength(a);
      assert forall i :: 0 <= i < m ==> s[i] == a[i];
      WordLengthUnique(s, m);
      assert s[..m] == a[..m];
      assert s[m..] == a[m..] + [c] + b;
      TokensSplit(a[m..], c, b);
    }
  }

  /** A command word and one argument, separated by one blank. */
  lemma TwoTokens(w: string, x: string)
    requires Word(w) && Word(x)
    ensures Tokens(w + " " + x) == [w, x]
  {
    TokensOfWord(w);
    TokensOfWord(x);
    assert w + " " + x == w + [' '] + x;
    TokensSplit(w, ' ', x);
  }

  /** Tokenising the joined query text gives back the tokens: the query text
      loses nothing but the original spacing. */
  lemma {:induction false} TokensOfJoin(ws: seq<string>)
    requires forall w :: w in ws ==> Word(w)
    ensures Tokens(Join(ws)) == ws
    decreases |ws|
  {
    if |ws| == 0 {
    } else if |ws| == 1 {
      TokensOfWord(ws[0]);
    } else {
      TokensSplit(ws[0], ' ', Join(ws[1..]));
      assert ws[0] + " " + Join(ws[1..]) == ws[0] + [' '] + Join(ws[1..]);
      TokensOfWord(ws[0]);
      TokensOfJoin(ws[1..]);
    }
  }

  /** A line yields no token exactly when it is all separators. */
  lemma {:induction false} NoTokensIffBlank(s: string)
    ensures Tokens(s) == [] <==> forall i :: 0 <= i < |s| ==> IsSpace(s[i])
    decreases |s|
  {
    if s != [] {
      NoTokensIffBlank(s[1..]);
      if IsSpace(s[0]) {
        assert forall i :: 1 <= i < |s| ==> s[i] == s[1..][i - 1];
      }
    }
  }

  /** Re-joining the tokens of a line collapses every run of separators to one
      blank and drops leading and trailing separators; tokenising again is stable. */
  lemma JoinOfTokensIsStable(s: string)
    ensures Tokens(Join(Tokens(s))) == Tokens(s)
  {
    TokensAreWords(s);
    TokensOfJoin(Tokens(s));
  }

  lemma {:induction false} JoinSnoc(ws: seq<string>, w: string)
    requires |ws| >= 1
    ensures Join(ws + [w]) == Join(ws) + " " + w
    decreases |ws|
  {
    if |ws| == 1 {
      assert (ws + [w])[1..] == [w];
    } else {
      assert (ws + [w])[1..] == ws[1..] + [w];
      JoinSnoc(ws[1..], w);
    }
  }

  /** processInput's extraction loop: `>>` into `argument`, `push_back`. */
  method Tokenize(line: string) returns (arguments: seq<string>)
    ensures arguments == Tokens(line)
  {
    arguments := [];
    var i := 0;
    while i < |line|
      invariant 0 <= i <= |line|
      invariant arguments + Tokens(line[i..]) == Tokens(line)
    {
      if IsSpace(line[i]) {
        assert line[i..][1..] == line[i + 1..];
        i := i + 1;
      } else {
        var argument, j := Extract(line, i);
        assert line[i..][..j - i] == argument;
        assert line[i..][j - i..] == line[j..];
        arguments := arguments + [argument];
        i := j;
      }
    }
  }

  /** One `>>` extraction starting at a non-separator: the characters up to
      the next separator or the end of the line. */
  method Extract(line: string, i: nat) returns (argument: string, j: nat)
    requires i < |line|
    ensures i <= j <= |line| && j - i == WordLength(line[i..])
    ensures argument == line[i..j]
  {
    j := i;
    argument := "";
    while j < |line| && !IsSpace(line[j])
      invariant i <= j <= |line|
      invariant argument == line[i..j]
      invariant forall k :: i <= k < j ==> !IsSpace(line[k])
    {
      argument := argument + [line[j]];
      j := j + 1;
    }
    WordLengthUnique(line[i..], j - i);
  }

  /** The query-text loop of cmdQuery and cmdTest: every token after the command
      word but the last followed by a blank, then the last one. `input.size() - 1`
      is unsigned, so the loop relies on at least one token. */
  method QueryText(input: seq<string>) returns (query: string)
    requires |input| >= 1
    ensures query == Join(input[1..])
  {
    query := "";
    var i := 1;
    while i < |input| - 1
      invariant 1 <= i <= if |input| >= 2 then |input| - 1 else 1
      invariant query == if i == 1 then "" else Join(input[1..i]) + " "
    {
      if i > 1 {
        assert input[1..i + 1] == input[1..i] + [input[i]];
        JoinSnoc(input[1..i], input[i]);
      }
      query := query + input[i] + " ";
      i := i + 1;
    }
    if |input| > 1 {
      if i > 1 {
        assert input[1..] == input[1..i] + [input[i]];
        JoinSnoc(input[1..i], input[i]);
      }
      query := query + input[|input| - 1];
    }
  }
}
