/**
 * Preparation of a run: the account, proxy and phrase files, given as the
 * lines they contain, become the lists the rotation works on
 * (main_gui.py, the first part of `async_main`).
 */
module Inputs {
  import opened Basics
  import opened Text

  /** One `name;token` line of the accounts file. */
  datatype Account = Account(name: string, token: string)

  /** What reading one file produced: its lines, or an error (including "no file chosen"). */
  datatype ReadResult = ReadError | Read(lines: seq<string>)

  /** The lists a run starts from. */
  datatype Plan = Plan(accounts: seq<Account>, proxies: seq<string>, messages: seq<string>)

  /** Why a run stops before any bot exists. */
  datatype SetupError = AccountsUnreadable | NoAccounts | PhrasesUnreadable | NoPhrases

  /**
   * One line of the accounts file: kept when, once stripped, it is non-empty
   * and holds a `;`; split at the first `;` only, both halves stripped.
   */
  function ParseAccountLine(line: string): (r: Option<Account>)
    ensures r.Some? <==> Strip(line) != [] && ';' in Strip(line)
    ensures r.Some? ==> Storable(r.value)
  {
    var text := Strip(line);
    if text == [] || ';' !in text then None
    else
      var (name, token) := SplitFirst(text, ';');
      StripExcludes(name, ';');
      Some(Account(Strip(name), Strip(token)))
  }

  /**
   * An account read from a line is the stripped text on either side of the
   * first `;` of the stripped line: any split of the stripped line whose
   * left part holds no `;` gives exactly the account read.
   */
  lemma ParseAccountLineSplits(line: string, name: string, token: string)
    requires Strip(line) == name + [';'] + token && ';' !in name
    ensures ParseAccountLine(line) == Some(Account(Strip(name), Strip(token)))
  {
    assert Strip(line)[|name|] == ';';
    SplitFirstUnique(name, ';', token);
  }

  /** The accounts of a file, in file order. */
  function ParseAccounts(lines: seq<string>): (r: seq<Account>)
    ensures |r| <= |lines|
    ensures forall i :: 0 <= i < |r| ==> Storable(r[i])
  {
    if lines == [] then []
    else
      var head := ParseAccountLine(lines[0]);
      (if head.Some? then [head.value] else []) + ParseAccounts(lines[1..])
  }

  /** An account is in the list exactly when some line of the file reads as that account. */
  lemma {:induction false} ParseAccountsMeaning(lines: seq<string>)
    ensures forall a :: a in ParseAccounts(lines) <==> exists l :: l in lines && ParseAccountLine(l) == Some(a)
  {
    if lines != [] {
      ParseAccountsMeaning(lines[1..]);
      var head := ParseAccountLine(lines[0]);
      assert ParseAccounts(lines) == (if head.Some? then [head.value] else []) + ParseAccounts(lines[1..]);
      forall a | exists l :: l in lines && ParseAccountLine(l) == Some(a)
        ensures a in ParseAccounts(lines)
      {
        var l :| l in lines && ParseAccountLine(l) == Some(a);
        if l != lines[0] {
          assert l in lines[1..];
        }
      }
      forall a | a in ParseAccounts(lines)
        ensures exists l :: l in lines && ParseAccountLine(l) == Some(a)
      {
        if a !in ParseAccounts(lines[1..]) {
          assert lines[0] in lines && ParseAccountLine(lines[0]) == Some(a);
        } else {
          var l :| l in lines[1..] && ParseAccountLine(l) == Some(a);
          assert l in lines;
        }
      }
    }
  }

  /** Parsing works line by line: the accounts of two files joined are the two lists joined. */
  lemma {:induction false} ParseAccountsAppend(a: seq<string>, b: seq<string>)
    ensures ParseAccounts(a + b) == ParseAccounts(a) + ParseAccounts(b)
  {
    if a == [] {
      assert a + b == b;
    } else {
      assert (a + b)[0] == a[0];
      assert (a + b)[1..] == a[1..] + b;
      ParseAccountsAppend(a[1..], b);
      var head := ParseAccountLine(a[0]);
      var first := if head.Some? then [head.value] else [];
      assert ParseAccounts(a + b) == first + ParseAccounts(a[1..] + b);
      assert ParseAccounts(a) == first + ParseAccounts(a[1..]);
    }
  }

  /** An account as a line of the accounts file. */
  function FormatAccount(a: Account): string {
    a.name + ";" + a.token
  }

  /** What an account must look like to survive a trip through the accounts file. */
  predicate Storable(a: Account) {
    ';' !in a.name && Stripped(a.name) && Stripped(a.token)
  }

  /** A storable account written as a line reads back as itself. */
  lemma AccountLineRoundTrip(a: Account)
    requires Storable(a)
    ensures ParseAccountLine(FormatAccount(a)) == Some(a)
  {
    var line := FormatAccount(a);
    assert line == a.name + [';'] + a.token;
    assert line[|a.name|] == ';';
    assert Stripped(line);
    StripOfStripped(line);
    SplitFirstUnique(a.name, ';', a.token);
    StripOfStripped(a.name);
    StripOfStripped(a.token);
  }

  /** Storable accounts written one per line read back as the same list, in order. */
  lemma {:induction false} AccountsRoundTrip(accounts: seq<Account>)
    requires forall a :: a in accounts ==> Storable(a)
    ensures ParseAccounts(FormatAccounts(accounts)) == accounts
  {
    if accounts != [] {
      var rest := accounts[1..];
      assert forall a :: a in rest ==> a in accounts;
      AccountsRoundTrip(rest);
      AccountsRoundTripCons(accounts[0], rest);
      assert [accounts[0]] + rest == accounts;
    }
  }

  /** One more storable account in front of a list that survives the trip survives with it. */
  lemma AccountsRoundTripCons(a: Account, rest: seq<Account>)
    requires Storable(a) && ParseAccounts(FormatAccounts(rest)) == rest
    ensures ParseAccounts(FormatAccounts([a] + rest)) == [a] + rest
  {
    var accounts := [a] + rest;
    assert accounts[0] == a && accounts[1..] == rest;
    AccountLineRoundTrip(a);
  }

  /** Accounts written one per line, in order. */
  function FormatAccounts(accounts: seq<Account>): (r: seq<string>)
    ensures |r| == |accounts|
  {
    if accounts == [] then [] else [FormatAccount(accounts[0])] + FormatAccounts(accounts[1..])
  }

  /** `[line.strip() for line in f if line.strip()]`, used for phrases and proxies. */
  function NonBlankLines(lines: seq<string>): (r: seq<string>)
    ensures |r| <= |lines|
    ensures forall x :: x in r ==> x != [] && Stripped(x)
  {
    if lines == [] then []
    else
      var text := Strip(lines[0]);
      (if text != [] then [text] else []) + NonBlankLines(lines[1..])
  }

  /** A phrase is kept exactly when it is the non-empty stripped form of some line. */
  lemma {:induction false} NonBlankLinesMeaning(lines: seq<string>)
    ensures forall x :: x in NonBlankLines(lines) <==> x != [] && exists l :: l in lines && Strip(l) == x
  {
    if lines != [] {
      NonBlankLinesMeaning(lines[1..]);
      var text := Strip(lines[0]);
      assert NonBlankLines(lines) == (if text != [] then [text] else []) + NonBlankLines(lines[1..]);
      forall x | x != [] && exists l :: l in lines && Strip(l) == x
        ensures x in NonBlankLines(lines)
      {
        var l :| l in lines && Strip(l) == x;
        if l != lines[0] {
          assert l in lines[1..];
        }
      }
      forall x | x in NonBlankLines(lines)
        ensures exists l :: l in lines && Strip(l) == x
      {
        if x !in NonBlankLines(lines[1..]) {
          assert lines[0] in lines && Strip(lines[0]) == x;
        } else {
          var l :| l in lines[1..] && Strip(l) == x;
          assert l in lines;
        }
      }
    }
  }

  /** Filtering works line by line, so file order is kept. */
  lemma {:induction false} NonBlankLinesAppend(a: seq<string>, b: seq<string>)
    ensures NonBlankLines(a + b) == NonBlankLines(a) + NonBlankLines(b)
  {
    if a == [] {
      assert a + b == b;
    } else {
      assert (a + b)[0] == a[0];
      assert (a + b)[1..] == a[1..] + b;
      NonBlankLinesAppend(a[1..], b);
    }
  }

  /** Lines that are already stripped and non-empty pass through unchanged; so filtering twice is filtering once. */
  lemma {:induction false} NonBlankLinesKeepsClean(lines: seq<string>)
    requires forall x :: x in lines ==> x != [] && Stripped(x)
    ensures NonBlankLines(lines) == lines
  {
    if lines != [] {
      StripOfStripped(lines[0]);
      assert forall x :: x in lines[1..] ==> x in lines;
      NonBlankLinesKeepsClean(lines[1..]);
      assert lines == [lines[0]] + lines[1..];
    }
  }

  /** The proxy paired with account `i`: `proxies[i]` when there is one. */
  function ProxyFor(proxies: seq<string>, i: nat): (r: Option<string>)
    ensures r.Some? <==> i < |proxies|
    ensures r.Some? ==> r.value == proxies[i]
  {
    if i < |proxies| then Some(proxies[i]) else None
  }

  /**
   * The lists a run starts from, or why it stops before creating a bot.
   * `accounts` and `phrases` are `ReadError` also when no file was chosen;
   * `proxies` is `None` when no proxy file was chosen.
   */
  function Prepare(accounts: ReadResult, proxies: Option<ReadResult>, phrases: ReadResult): (r: Result<Plan, SetupError>)
    ensures r == Err(AccountsUnreadable) <==> accounts.ReadError?
    ensures r == Err(NoAccounts) <==> accounts.Read? && ParseAccounts(accounts.lines) == []
    ensures r == Err(PhrasesUnreadable) <==>
      accounts.Read? && ParseAccounts(accounts.lines) != [] && phrases.ReadError?
    ensures r.Ok? <==>
      accounts.Read? && ParseAccounts(accounts.lines) != [] && phrases.Read? && NonBlankLines(phrases.lines) != []
    ensures r.Ok? ==>
      && r.value.accounts == ParseAccounts(accounts.lines)
      && r.value.messages == NonBlankLines(phrases.lines)
      && r.value.proxies == (if proxies.Some? && proxies.value.Read? then NonBlankLines(proxies.value.lines) else [])
  {
    if accounts.ReadError? then Err(AccountsUnreadable)
    else
      var parsed := ParseAccounts(accounts.lines);
      if parsed == [] then Err(NoAccounts)
      else
        var proxyList := if proxies.Some? && proxies.value.Read? then NonBlankLines(proxies.value.lines) else [];
        if phrases.ReadError? then Err(PhrasesUnreadable)
        else
          var messages := NonBlankLines(phrases.lines);
          if messages == [] then Err(NoPhrases)
          else Ok(Plan(parsed, proxyList, messages))
  }
}
