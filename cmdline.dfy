/** The game's command line as the injector library assembles it: the
    executable path followed by each argument, each preceded by one space.
    Quoting is a reduced form of the Microsoft C runtime convention: only a
    space triggers quoting, embedded quotes become \" without doubling the
    backslashes before them, and only the run of trailing backslashes of a
    quoted argument is doubled. */
module CommandLine {
  import opened Wrappers
  import opened InjectorApi

  const Quote: char := '"'
  const Backslash: char := '\\'
  const Space: char := ' '

  /** std::wstring::find(c, from): the least index at or after `from` that
      holds c, or None (npos). */
  function FindChar(s: seq<char>, c: char, from: nat): (r: Option<nat>)
    ensures r.Some? ==> from <= r.value < |s| && s[r.value] == c
    ensures r.Some? ==> forall k :: from <= k < r.value ==> s[k] != c
    ensures r.None? ==> forall k :: from <= k < |s| ==> s[k] != c
    decreases |s| - from
  {
    if from >= |s| then None
    else if s[from] == c then Some(from)
    else FindChar(s, c, from + 1)
  }

  /** Every quote replaced by backslash-quote, everything else kept. */
  function EscapeQuotes(s: seq<char>): seq<char>
  {
    if s == [] then []
    else (if s[0] == Quote then [Backslash, Quote] else [s[0]]) + EscapeQuotes(s[1..])
  }

  function Backslashes(n: nat): (r: seq<char>)
    ensures |r| == n && forall k :: 0 <= k < n ==> r[k] == Backslash
  {
    if n == 0 then [] else Backslashes(n - 1) + [Backslash]
  }

  /** The length of the run of backslashes that ends s. */
  function TrailingBackslashes(s: seq<char>): (n: nat)
    ensures n <= |s|
    ensures forall k :: |s| - n <= k < |s| ==> s[k] == Backslash
    ensures n < |s| ==> s[|s| - n - 1] != Backslash
  {
    if s == [] || s[|s| - 1] != Backslash then 0
    else TrailingBackslashes(s[..|s| - 1]) + 1
  }

  /** The executable path: quoted, with its quotes escaped, only when it
      contains a space. */
  function QuoteExe(p: seq<char>): seq<char>
  {
    if Space in p then [Quote] + EscapeQuotes(p) + [Quote] else p
  }

  /** One argument: the empty argument becomes "", an argument with a space
      is escaped, gets its trailing backslashes doubled and is wrapped in
      quotes, anything else is copied as it is. */
  function QuoteArg(a: seq<char>): seq<char>
  {
    if a == [] then [Quote, Quote]
    else if Space in a then
      var e := EscapeQuotes(a);
      [Quote] + e + Backslashes(TrailingBackslashes(e)) + [Quote]
    else a
  }

  /** Each argument, in order, preceded by one space. */
  function JoinArgs(args: seq<seq<char>>): seq<char>
  {
    if args == [] then [] else JoinArgs(args[..|args| - 1]) + [Space] + QuoteArg(args[|args| - 1])
  }

  /** The whole command line. */
  function Assemble(exe: seq<char>, args: seq<seq<char>>): seq<char>
  {
    QuoteExe(exe) + JoinArgs(args)
  }

  // ---------------------------------------------------------------------
  // The in-place construction

  /** The find/replace loop: find the next quote from the current position,
      replace it by backslash-quote, continue two characters further on. */
  method ReplaceQuotes(s0: seq<char>) returns (s: seq<char>)
    ensures s == EscapeQuotes(s0)
  {
    s := s0;
    var pos := FindChar(s, Quote, 0);
    ghost var done, from := 0, 0;
    assert s0[..0] == [] && s0[0..] == s0;
    while pos.Some?
      invariant Processed(s0, done, s, from)
      invariant pos == FindChar(s, Quote, from)
      decreases |s0| - done
    {
      var p := pos.value;
      done := ReplaceStep(s0, done, s, p);
      s := s[..p] + [Backslash, Quote] + s[p + 1..];
      p := p + 2;
      from := p;
      pos := FindChar(s, Quote, p);
    }
    ReplaceDone(s0, done, s);
  }

  /** The loop's state: the first `done` characters of the input have been
      escaped, the rest is untouched, and the search resumes right after the
      escaped part. */
  ghost predicate Processed(s0: seq<char>, done: nat, s: seq<char>, from: nat)
  {
    done <= |s0| && s == EscapeQuotes(s0[..done]) + s0[done..] && from == |EscapeQuotes(s0[..done])|
  }

  /** One replacement: the quote found at p is the next quote of the input,
      at index j; afterwards the input is processed up to and including j and
      the search resumes right after the inserted backslash-quote. */
  lemma ReplaceStep(s0: seq<char>, done: nat, s: seq<char>, p: nat) returns (next: nat)
    requires done <= |s0|
    requires s == EscapeQuotes(s0[..done]) + s0[done..]
    requires FindChar(s, Quote, |EscapeQuotes(s0[..done])|) == Some(p)
    ensures done < next <= |s0|
    ensures s[..p] + [Backslash, Quote] + s[p + 1..] == EscapeQuotes(s0[..next]) + s0[next..]
    ensures p + 2 == |EscapeQuotes(s0[..next])|
  {
    var pre, rest := EscapeQuotes(s0[..done]), s0[done..];
    var j := done + (p - |pre|);
    var mid := s0[done..j];
    forall k | 0 <= k < |mid| ensures mid[k] != Quote {
      assert mid[k] == rest[k] == s[|pre| + k];
    }
    assert s0[j] == rest[p - |pre|] == s[p] == Quote;
    EscapeSplit(s0[..done], mid, s0[j]);
    next := j + 1;
    assert s0[..next] == s0[..done] + mid + [s0[j]];
    assert s[p + 1..] == rest[p - |pre| + 1..] == s0[next..];
    assert s[..p] == pre + mid;
  }

  /** When no quote is left after the search position, the rest of the
      input needs no escaping. */
  lemma ReplaceDone(s0: seq<char>, done: nat, s: seq<char>)
    requires done <= |s0|
    requires s == EscapeQuotes(s0[..done]) + s0[done..]
    requires FindChar(s, Quote, |EscapeQuotes(s0[..done])|).None?
    ensures s == EscapeQuotes(s0)
  {
    var pre, rest := EscapeQuotes(s0[..done]), s0[done..];
    forall k | 0 <= k < |rest| ensures rest[k] != Quote {
      assert rest[k] == s[|pre| + k];
    }
    EscapeQuoteFree(rest);
    EscapeAppend(s0[..done], rest);
    assert s0[..done] + rest == s0;
  }

  /** Builds the command line as the library does: start from the
      executable path, then append a space and each (possibly rewritten)
      argument. */
  method BuildCommandLine(exe: seq<char>, argv: seq<seq<char>>) returns (cmd: seq<char>)
    ensures cmd == Assemble(exe, argv)
  {
    cmd := QuoteExecutable(exe);
    ghost var head := cmd;
    var i := 0;
    assert argv[..0] == [];
    while i < |argv|
      invariant 0 <= i <= |argv|
      invariant cmd == head + JoinArgs(argv[..i])
    {
      var arg := QuoteArgument(argv[i]);
      JoinStep(head, argv, i);
      cmd := cmd + [Space];
      cmd := cmd + arg;
      i := i + 1;
    }
    assert argv[..|argv|] == argv;
  }

  /** The executable path, quoted when it holds a space. */
  method QuoteExecutable(exe: seq<char>) returns (cmd: seq<char>)
    ensures cmd == QuoteExe(exe)
  {
    cmd := exe;
    if Space in cmd {
      cmd := ReplaceQuotes(cmd);
      cmd := [Quote] + cmd;
      cmd := cmd + [Quote];
    }
  }

  /** Appending a space and the next rewritten argument extends the joined
      arguments by one. */
  lemma JoinStep(head: seq<char>, argv: seq<seq<char>>, i: nat)
    requires i < |argv|
    ensures head + JoinArgs(argv[..i]) + [Space] + QuoteArg(argv[i]) == head + JoinArgs(argv[..i + 1])
  {
    var j, q := JoinArgs(argv[..i]), QuoteArg(argv[i]);
    assert argv[..i + 1][..i] == argv[..i];
    assert JoinArgs(argv[..i + 1]) == j + [Space] + q;
    assert head + j + [Space] + q == head + (j + [Space] + q);
  }

  /** The rewriting of one argument, in the order the library applies it. */
  method QuoteArgument(a: seq<char>) returns (arg: seq<char>)
    ensures arg == QuoteArg(a)
  {
    arg := a;
    if arg == [] {
      arg := [Quote, Quote];
    } else if Space in arg {
      arg := ReplaceQuotes(arg);
      arg := arg + Backslashes(TrailingBackslashes(arg));
      arg := [Quote] + arg;
      arg := arg + [Quote];
    }
  }

  // ---------------------------------------------------------------------
  // Facts about escaping

  function CountQuotes(s: seq<char>): nat
  {
    if s == [] then 0 else (if s[0] == Quote then 1 else 0) + CountQuotes(s[1..])
  }

  lemma {:induction false} EscapeAppend(a: seq<char>, b: seq<char>)
    ensures EscapeQuotes(a + b) == EscapeQuotes(a) + EscapeQuotes(b)
  {
    if a != [] {
      assert (a + b)[0] == a[0];
      assert (a + b)[1..] == a[1..] + b;
      EscapeAppend(a[1..], b);
      var head := if a[0] == Quote then [Backslash, Quote] else [a[0]];
      assert EscapeQuotes(a + b) == head + EscapeQuotes(a[1..] + b);
      assert EscapeQuotes(a) == head + EscapeQuotes(a[1..]);
    } else {
      assert a + b == b;
    }
  }

  lemma {:induction false} EscapeQuoteFree(s: seq<char>)
    requires forall k :: 0 <= k < |s| ==> s[k] != Quote
    ensures EscapeQuotes(s) == s
  {
    if s != [] {
      EscapeQuoteFree(s[1..]);
    }
  }

  lemma EscapeSplit(done: seq<char>, mid: seq<char>, q: char)
    requires forall k :: 0 <= k < |mid| ==> mid[k] != Quote
    requires q == Quote
    ensures EscapeQuotes(done + mid + [q]) == EscapeQuotes(done) + mid + [Backslash, Quote]
  {
    EscapeAppend(done + mid, [q]);
    EscapeAppend(done, mid);
    EscapeQuoteFree(mid);
    assert EscapeQuotes([q]) == [Backslash, Quote] + EscapeQuotes([q][1..]);
  }

  /** Each quote is replaced exactly once: the output grows by one character
      per quote and still holds the same number of quotes. */
  lemma {:induction false} EscapeCounts(s: seq<char>)
    ensures |EscapeQuotes(s)| == |s| + CountQuotes(s)
    ensures CountQuotes(EscapeQuotes(s)) == CountQuotes(s)
  {
    if s != [] {
      EscapeCounts(s[1..]);
      var head := if s[0] == Quote then [Backslash, Quote] else [s[0]];
      CountAppend(head, EscapeQuotes(s[1..]));
    }
  }

  lemma {:induction false} CountAppend(a: seq<char>, b: seq<char>)
    ensures CountQuotes(a + b) == CountQuotes(a) + CountQuotes(b)
  {
    if a != [] {
      assert (a + b)[0] == a[0];
      assert (a + b)[1..] == a[1..] + b;
      CountAppend(a[1..], b);
      var h := if a[0] == Quote then 1 else 0;
      assert CountQuotes(a + b) == h + CountQuotes(a[1..] + b);
      assert CountQuotes(a) == h + CountQuotes(a[1..]);
    } else {
      assert a + b == b;
    }
  }

  /** No quote of the escaped text stands bare: each one follows a
      backslash. */
  lemma {:induction false} EscapedQuotesFollowBackslash(s: seq<char>, k: nat)
    requires k < |EscapeQuotes(s)| && EscapeQuotes(s)[k] == Quote
    ensures k > 0 && EscapeQuotes(s)[k - 1] == Backslash
  {
    var head := if s[0] == Quote then [Backslash, Quote] else [s[0]];
    assert EscapeQuotes(s) == head + EscapeQuotes(s[1..]);
    if k >= |head| {
      EscapedQuotesFollowBackslash(s[1..], k - |head|);
    }
  }

  /** Reading \" back as a quote undoes the escaping. */
  function Unescape(t: seq<char>): seq<char>
  {
    if t == [] then []
    else if |t| >= 2 && t[0] == Backslash && t[1] == Quote then [Quote] + Unescape(t[2..])
    else [t[0]] + Unescape(t[1..])
  }

  lemma {:induction false} UnescapeEscape(s: seq<char>)
    ensures Unescape(EscapeQuotes(s)) == s
  {
    if s != [] {
      UnescapeEscape(s[1..]);
      var rest := EscapeQuotes(s[1..]);
      var t := EscapeQuotes(s);
      if s[0] == Quote {
        assert t == [Backslash, Quote] + rest;
        assert t[2..] == rest;
        assert Unescape(t) == [Quote] + Unescape(rest);
      } else {
        assert t == [s[0]] + rest;
        assert t[1..] == rest;
        if rest != [] {
          NoLeadingQuote(s[1..]);
          assert t[1] == rest[0] != Quote;
        }
        assert Unescape(t) == [s[0]] + Unescape(rest);
      }
    }
  }

  lemma NoLeadingQuote(s: seq<char>)
    requires EscapeQuotes(s) != []
    ensures EscapeQuotes(s)[0] != Quote
  {
  }

  /** Escaping keeps the run of trailing backslashes. */
  lemma {:induction false} EscapeKeepsTrailingBackslashes(s: seq<char>)
    ensures TrailingBackslashes(EscapeQuotes(s)) == TrailingBackslashes(s)
  {
    if s != [] {
      var init, last := s[..|s| - 1], s[|s| - 1];
      assert s == init + [last];
      EscapeAppend(init, [last]);
      assert EscapeQuotes([last]) == (if last == Quote then [Backslash, Quote] else [last]) + EscapeQuotes([]);
      if last == Backslash {
        EscapeKeepsTrailingBackslashes(init);
        var e := EscapeQuotes(s);
        assert e[..|e| - 1] == EscapeQuotes(init);
      }
    }
  }

  /** An argument with a space, ending in n backslashes after a stem p, is
      written as a quote, the escaped stem, 2n backslashes and a quote. */
  lemma QuotedArgShape(p: seq<char>, n: nat)
    requires Space in p + Backslashes(n)
    requires p == [] || p[|p| - 1] != Backslash
    ensures QuoteArg(p + Backslashes(n)) == [Quote] + EscapeQuotes(p) + Backslashes(2 * n) + [Quote]
  {
    var a, ep, b := p + Backslashes(n), EscapeQuotes(p), Backslashes(n);
    EscapeQuoteFree(b);
    EscapeAppend(p, b);
    EscapeKeepsTrailingBackslashes(a);
    TrailingOfStem(p, n);
    assert a != [];
    assert QuoteArg(a) == [Quote] + (ep + b) + b + [Quote];
    BackslashesAppend(n, n);
    Associative([Quote], ep, b);
    Associative([Quote] + ep, b, b);
  }

  lemma {:induction false} TrailingOfStem(p: seq<char>, n: nat)
    requires p == [] || p[|p| - 1] != Backslash
    ensures TrailingBackslashes(p + Backslashes(n)) == n
  {
    if n > 0 {
      assert (p + Backslashes(n))[..|p| + n - 1] == p + Backslashes(n - 1);
      TrailingOfStem(p, n - 1);
    } else {
      assert p + Backslashes(0) == p;
    }
  }

  lemma BackslashesAppend(m: nat, n: nat)
    ensures Backslashes(m) + Backslashes(n) == Backslashes(m + n)
  {
  }

  /** The executable path is quoted exactly when it contains a space. */
  lemma ExeQuotedIffSpace(p: seq<char>)
    ensures |QuoteExe(p)| >= 2 && QuoteExe(p)[0] == Quote && QuoteExe(p)[|QuoteExe(p)| - 1] == Quote
            <== Space in p
    ensures Space !in p ==> QuoteExe(p) == p
  {
  }

  // ---------------------------------------------------------------------
  // Splitting back a command line with no quoting

  function LastSpace(s: seq<char>): (i: nat)
    requires Space in s
    ensures i < |s| && s[i] == Space && Space !in s[i + 1..]
    ensures forall k :: i < k < |s| ==> s[k] != Space
  {
    if s[|s| - 1] == Space then |s| - 1
    else
      assert Space in s[..|s| - 1] by {
        var k :| 0 <= k < |s| && s[k] == Space;
        assert s[..|s| - 1][k] == Space;
      }
      LastSpace(s[..|s| - 1])
  }

  /** The space-separated words of s. */
  function Words(s: seq<char>): seq<seq<char>>
  {
    if Space !in s then [s] else Words(s[..LastSpace(s)]) + [s[LastSpace(s) + 1..]]
  }

  lemma WordsAppend(x: seq<char>, a: seq<char>)
    requires Space !in a
    ensures Words(x + [Space] + a) == Words(x) + [a]
  {
    var s := x + [Space] + a;
    assert s[|x|] == Space;
    assert s[|x| + 1..] == a;
    var i := LastSpace(s);
    assert forall k :: |x| < k < |s| ==> s[k] == a[k - |x| - 1] != Space;
    assert i == |x|;
    assert s[..|x|] == x;
  }

  /** Arguments that need no quoting: none is empty and none has a space. */
  predicate PlainArgs(args: seq<seq<char>>)
  {
    forall i :: 0 <= i < |args| ==> args[i] != [] && Space !in args[i]
  }

  /** Dropping the last plain argument drops its space and its text from the
      end of the command line. */
  lemma PlainStep(exe: seq<char>, args: seq<seq<char>>)
    requires args != [] && PlainArgs(args)
    ensures PlainArgs(args[..|args| - 1])
    ensures Assemble(exe, args) == Assemble(exe, args[..|args| - 1]) + [Space] + args[|args| - 1]
  {
    var init, last := args[..|args| - 1], args[|args| - 1];
    assert forall i :: 0 <= i < |init| ==> init[i] == args[i];
    assert QuoteArg(last) == last;
    var e, j := QuoteExe(exe), JoinArgs(init);
    assert JoinArgs(args) == j + [Space] + last;
    assert e + (j + [Space] + last) == e + j + [Space] + last;
  }

  lemma ConsSplitLast<T>(x: T, s: seq<T>)
    requires s != []
    ensures [x] + s == [x] + s[..|s| - 1] + [s[|s| - 1]]
  {
    assert s == s[..|s| - 1] + [s[|s| - 1]];
  }

  /** With an executable path and arguments that need no quoting, the words
      of the command line are the executable path followed by the arguments
      in their original order. */
  lemma {:induction false} WordsOfPlainCommandLine(exe: seq<char>, args: seq<seq<char>>)
    requires Space !in exe
    requires PlainArgs(args)
    ensures Words(Assemble(exe, args)) == [exe] + args
  {
    if args != [] {
      var init, last := args[..|args| - 1], args[|args| - 1];
      PlainStep(exe, args);
      WordsOfPlainCommandLine(exe, init);
      WordsAppend(Assemble(exe, init), last);
      ConsSplitLast(exe, args);
    } else {
      assert Assemble(exe, args) == exe;
    }
  }
}
