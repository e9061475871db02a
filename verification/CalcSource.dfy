/** Reading calc sources: one expression from its tokens, and the bindings of a root file with its
    includes. */
module CalcSource {
  import opened Sequences
  import opened Calc

  // ---------------------------------------------------------------------------------------------
  // Expressions

  datatype Token = Plus | Minus | Atom(operand: Operand)

  datatype Parsed = Terms(terms: Expr) | EmptyExpression | ExpectedOperand | ExpectedOperator

  predicate Signed(e: Expr) {
    forall i :: 0 <= i < |e| ==> e[i].sign == 1 || e[i].sign == -1
  }

  function SignToken(sign: int): Token {
    if sign == 1 then Plus else Minus
  }

  /** An expression written out, every term with its sign. */
  function Printed(e: Expr): seq<Token> {
    seq(2 * |e|, k requires 0 <= k < 2 * |e| => if k % 2 == 0 then SignToken(e[k / 2].sign) else Atom(e[k / 2].operand))
  }

  /** The first term may do without its plus sign. */
  function WithSign(tokens: seq<Token>): seq<Token> {
    if tokens != [] && tokens[0].Atom? then [Plus] + tokens else tokens
  }

  ghost predicate Spells(tokens: seq<Token>, e: Expr) {
    e != [] && Signed(e) && WithSign(tokens) == Printed(e)
  }

  /** Tokens spell at most one expression. */
  lemma SpellsOne(tokens: seq<Token>, e: Expr, e': Expr)
    requires Spells(tokens, e) && Spells(tokens, e')
    ensures e == e'
  {
    var full := WithSign(tokens);
    assert |full| == 2 * |e| == 2 * |e'|;
    forall i | 0 <= i < |e| ensures e[i] == e'[i] {
      assert full[2 * i] == SignToken(e[i].sign) == SignToken(e'[i].sign);
      assert full[2 * i + 1] == Atom(e[i].operand) == Atom(e'[i].operand);
    }
  }

  /** At an odd position of a written expression stands an operand, at an even one a sign. */
  lemma PrintedAt(e: Expr, k: nat)
    requires k < 2 * |e|
    ensures Printed(e)[k].Atom? <==> k % 2 == 1
  {}

  lemma PrintedMore(e: Expr, t: Term)
    ensures Printed(e + [t]) == Printed(e) + [SignToken(t.sign), Atom(t.operand)]
  {}

  /** The first `k` tokens are `terms` written out and the sign of the next. */
  ghost predicate ReadTo(full: seq<Token>, k: nat, terms: Expr, sign: int) {
    && k == 2 * |terms| + 1 <= |full| && Signed(terms) && (sign == 1 || sign == -1)
    && full[..k] == Printed(terms) + [SignToken(sign)]
  }

  lemma FirstSign(tokens: seq<Token>)
    requires tokens != []
    ensures var shift := |WithSign(tokens)| - |tokens|;
            && shift == (if tokens[0].Atom? then 1 else 0)
            && (tokens[0].Atom? ==> ReadTo(WithSign(tokens), shift, [], 1))
            && (!tokens[0].Atom? ==> ReadTo(WithSign(tokens), 1, [], if tokens[0] == Plus then 1 else -1))
  {
    var full := WithSign(tokens);
    assert full[..1] == [full[0]];
  }

  /** Where the tokens end after a sign, or two signs or two operands follow each other, nothing is
      spelled. */
  lemma SpellsNothing(tokens: seq<Token>, k: nat)
    requires var full := WithSign(tokens);
             (k == |full| && k % 2 == 1) || (k < |full| && (full[k].Atom? <==> k % 2 == 0))
    ensures forall e :: !Spells(tokens, e)
  {
    forall e ensures !Spells(tokens, e) {
      if k < 2 * |e| { PrintedAt(e, k); }
    }
  }

  /** Token `k` is token `k + shift` of the whole. */
  lemma Shifted(tokens: seq<Token>, k: nat)
    ensures var full := WithSign(tokens);
            |full| >= |tokens| && (k < |tokens| ==> full[k + |full| - |tokens|] == tokens[k])
  {}

  lemma NoOperand(tokens: seq<Token>, k: nat, m: nat, terms: Expr, sign: int)
    requires m == k + |WithSign(tokens)| - |tokens| && ReadTo(WithSign(tokens), m, terms, sign)
    requires k >= |tokens| || !tokens[k].Atom?
    ensures forall e :: !Spells(tokens, e)
  {
    Shifted(tokens, k);
    hide Spells;
    SpellsNothing(tokens, m);
  }

  /** One more operand, and the sign after it if there is one. */
  lemma ReadOperand(tokens: seq<Token>, k: nat, m: nat, terms: Expr, sign: int)
    requires k < |tokens| && tokens[k].Atom? && m == k + |WithSign(tokens)| - |tokens|
    requires ReadTo(WithSign(tokens), m, terms, sign)
    ensures var full, terms', n := WithSign(tokens), terms + [Term(sign, tokens[k].operand)], k + 1;
            && (n == |tokens| ==> Spells(tokens, terms'))
            && (n < |tokens| && tokens[n].Atom? ==> forall e :: !Spells(tokens, e))
            && (n < |tokens| && !tokens[n].Atom? ==>
                  ReadTo(full, m + 2, terms', if tokens[n] == Plus then 1 else -1))
  {
    hide Printed; hide WithSign;
    var full := WithSign(tokens);
    Shifted(tokens, k);
    Shifted(tokens, k + 1);
    PrintedMore(terms, Term(sign, tokens[k].operand));
    assert full[..m + 1] == full[..m] + [full[m]];
    if k + 1 < |tokens| {
      assert full[..m + 2] == full[..m + 1] + [full[m + 1]];
      if tokens[k + 1].Atom? { SpellsNothing(tokens, m + 1); }
    } else {
      assert full[..m + 1] == full;
    }
  }

  /** One term for each operand among the tokens, in order. It counts negative exactly if the token just before the
      operand is a minus. */
  ghost function TermsAt(tokens: seq<Token>): Expr {
    if tokens == [] then []
    else
      var n := |tokens| - 1;
      TermsAt(tokens[..n]) +
      if tokens[n].Atom? then [Term(if n > 0 && tokens[n - 1] == Minus then -1 else 1, tokens[n].operand)] else []
  }

  lemma TermsAtMore(tokens: seq<Token>, k: nat)
    requires k < |tokens|
    ensures TermsAt(tokens[..k + 1]) ==
            TermsAt(tokens[..k]) +
            if tokens[k].Atom? then [Term(if k > 0 && tokens[k - 1] == Minus then -1 else 1, tokens[k].operand)] else []
  {
    assert tokens[..k + 1][..k] == tokens[..k];
  }

  lemma NoTermsYet(tokens: seq<Token>)
    ensures TermsAt(tokens[..0]) == [] && Alternate(tokens, 0)
  {}

  /** Up to `k`, no two operands and no two signs follow each other. */
  ghost predicate Alternate(tokens: seq<Token>, k: nat) {
    k <= |tokens| && forall i :: 0 < i < k ==> (tokens[i].Atom? <==> !tokens[i - 1].Atom?)
  }

  /** After a sign in place `k - 1` no operand follows. */
  ghost predicate OperandMissing(tokens: seq<Token>, k: nat) {
    0 < k && Alternate(tokens, k) && !tokens[k - 1].Atom? && (k < |tokens| ==> !tokens[k].Atom?)
  }

  /** Between the operands in places `k - 1` and `k` there is no sign. */
  ghost predicate OperatorMissing(tokens: seq<Token>, k: nat) {
    0 < k < |tokens| && Alternate(tokens, k) && tokens[k - 1].Atom? && tokens[k].Atom?
  }

  /** Operands and signs in turn, an operand last. */
  ghost predicate Complete(tokens: seq<Token>) {
    tokens != [] && Alternate(tokens, |tokens|) && tokens[|tokens| - 1].Atom?
  }

  lemma NotComplete(tokens: seq<Token>, k: nat)
    requires OperandMissing(tokens, k) || OperatorMissing(tokens, k)
    ensures !Complete(tokens)
  {
    if k < |tokens| { assert tokens[k].Atom? == tokens[k - 1].Atom?; }
  }

  lemma AlternateMore(tokens: seq<Token>, k: nat)
    requires Alternate(tokens, k) && k < |tokens| && (k > 0 ==> (tokens[k].Atom? <==> !tokens[k - 1].Atom?))
    ensures Alternate(tokens, k + 1)
  {}

  /** Reads an expression off its tokens: it accepts exactly what spells one, and returns that one. An error says
      what is missing at the first place where no expression goes on. */
  method ParseExpr(tokens: seq<Token>) returns (r: Parsed)
    ensures r.Terms? ==> Spells(tokens, r.terms)
    ensures !r.Terms? ==> forall e :: !Spells(tokens, e)
    ensures r.Terms? ==> r.terms == TermsAt(tokens)
    ensures r.Terms? <==> Complete(tokens)
    ensures r.EmptyExpression? <==> tokens == []
    ensures r.ExpectedOperand? ==> exists k :: OperandMissing(tokens, k)
    ensures r.ExpectedOperator? ==> exists k :: OperatorMissing(tokens, k)
  {
    hide Printed; hide Signed; hide TermsAt; hide Alternate; hide Spells; hide ReadTo; hide WithSign;
    if tokens == [] {
      NothingSpelled();
      return EmptyExpression;
    }
    ghost var full := WithSign(tokens);
    ghost var shift := |full| - |tokens|;
    FirstSign(tokens);
    NoTermsYet(tokens);
    var terms: Expr := [];
    var sign := 1;
    var idx := 0;
    if !tokens[idx].Atom? {
      sign := if tokens[idx] == Plus then 1 else -1;
      TermsAtMore(tokens, idx);
      AlternateMore(tokens, idx);
      idx := idx + 1;
    }
    while true
      invariant idx <= |tokens| && ReadTo(full, idx + shift, terms, sign)
      invariant terms == TermsAt(tokens[..idx]) && Alternate(tokens, idx) && (idx > 0 ==> !tokens[idx - 1].Atom?)
      invariant sign == if idx > 0 && tokens[idx - 1] == Minus then -1 else 1
      invariant idx == 0 ==> tokens[0].Atom?
      decreases |tokens| - idx
    {
      if idx >= |tokens| || !tokens[idx].Atom? {
        NoOperand(tokens, idx, idx + shift, terms, sign);
        NotComplete(tokens, idx);
        return ExpectedOperand;
      }
      ReadOperand(tokens, idx, idx + shift, terms, sign);
      TermsAtMore(tokens, idx);
      AlternateMore(tokens, idx);
      terms := terms + [Term(sign, tokens[idx].operand)];
      idx := idx + 1;
      if idx >= |tokens| {
        assert tokens[..idx] == tokens;
        return Terms(terms);
      }
      if tokens[idx].Atom? {
        NotComplete(tokens, idx);
        return ExpectedOperator;
      }
      sign := if tokens[idx] == Plus then 1 else -1;
      TermsAtMore(tokens, idx);
      AlternateMore(tokens, idx);
      idx := idx + 1;
    }
  }

  lemma NothingSpelled()
    ensures forall e :: !Spells([], e)
  {
    forall e ensures !Spells([], e) { PrintedLength(e); }
  }

  lemma PrintedLength(e: Expr)
    ensures |Printed(e)| == 2 * |e|
  {}

  /** Writing an expression out and reading it back gives it back. */
  method ParsePrinted(e: Expr) returns (r: Parsed)
    requires e != [] && Signed(e)
    ensures r == Terms(e)
  {
    r := ParseExpr(Printed(e));
    assert Spells(Printed(e), e);
    if r.Terms? { SpellsOne(Printed(e), e, r.terms); }
  }

  // ---------------------------------------------------------------------------------------------
  // Includes

  type File = string

  /** What a file holds; a file that does not exist is not in the map. */
  datatype Payload = Payload(includes: seq<string>, bindings: seq<(Name, Expr)>)
  type Sources = map<File, Payload>

  const MAX_INCLUDE_DEPTH := 64

  ghost predicate Includes(s: Sources, resolve: (File, string) -> File, g: File, f: File) {
    g in s && exists i :: 0 <= i < |s[g].includes| && resolve(g, s[g].includes[i]) == f
  }

  /** `f` is at most `n` includes away from the root. */
  ghost predicate Within(s: Sources, resolve: (File, string) -> File, root: File, n: nat, f: File) {
    f == root
    || (n > 0 &&
        (Within(s, resolve, root, n - 1, f)
         || exists g :: Within(s, resolve, root, n - 1, g) && Includes(s, resolve, g, f)))
  }

  lemma {:induction false} WithinMore(s: Sources, resolve: (File, string) -> File, root: File, n: nat, m: nat, f: File)
    requires Within(s, resolve, root, n, f) && n <= m
    ensures Within(s, resolve, root, m, f)
    decreases m
  {
    if n < m { WithinMore(s, resolve, root, n, m - 1, f); }
  }

  /** Once a level adds nothing, none does. */
  lemma {:induction false} WithinStable(s: Sources, resolve: (File, string) -> File, root: File, n: nat, m: nat,
      f: File)
    requires forall g :: Within(s, resolve, root, n + 1, g) ==> Within(s, resolve, root, n, g)
    requires n <= m && Within(s, resolve, root, m, f)
    ensures Within(s, resolve, root, n, f)
    decreases m
  {
    if n < m && f != root {
      if Within(s, resolve, root, m - 1, f) {
        WithinStable(s, resolve, root, n, m - 1, f);
      } else {
        var g :| Within(s, resolve, root, m - 1, g) && Includes(s, resolve, g, f);
        WithinStable(s, resolve, root, n, m - 1, g);
        assert Within(s, resolve, root, n + 1, f);
      }
    }
  }

  /** What the files hold, one after another. */
  function Joint<T>(held: File -> seq<T>, files: seq<File>): seq<T> {
    if files == [] then [] else Joint(held, files[..|files| - 1]) + held(files[|files| - 1])
  }

  lemma JointMore<T>(held: File -> seq<T>, files: seq<File>, f: File)
    ensures Joint(held, files + [f]) == Joint(held, files) + held(f)
  {
    assert (files + [f])[..|files|] == files;
  }

  /** Where what file `n` holds begins. */
  ghost function Offset<T>(held: File -> seq<T>, files: seq<File>, n: nat): nat
    requires n <= |files|
  {
    |Joint(held, files[..n])|
  }

  /** Item `k` of file `n` has its place. */
  lemma {:induction false} PlaceOf<T>(held: File -> seq<T>, files: seq<File>, n: nat, k: nat)
    requires n < |files| && k < |held(files[n])|
    ensures Offset(held, files, n) + k < |Joint(held, files)|
    ensures Joint(held, files)[Offset(held, files, n) + k] == held(files[n])[k]
  {
    var last := |files| - 1;
    if n < last {
      PlaceOf(held, files[..last], n, k);
      assert files[..last][..n] == files[..n];
    }
  }

  /** Every place is that of one item. */
  lemma {:induction false} PlaceIn<T>(held: File -> seq<T>, files: seq<File>, p: nat) returns (n: nat, k: nat)
    requires p < |Joint(held, files)|
    ensures n < |files| && k < |held(files[n])| && p == Offset(held, files, n) + k
    ensures Joint(held, files)[p] == held(files[n])[k]
  {
    var last := |files| - 1;
    if p < |Joint(held, files[..last])| {
      n, k := PlaceIn(held, files[..last], p);
      assert files[..last][..n] == files[..n];
    } else {
      n, k := last, p - |Joint(held, files[..last])|;
    }
  }

  /** Of file `n`, or of a later one. */
  lemma {:induction false} OffsetsRise<T>(held: File -> seq<T>, files: seq<File>, n: nat, m: nat)
    requires n < m <= |files|
    ensures Offset(held, files, n) + |held(files[n])| <= Offset(held, files, m)
    decreases m
  {
    assert files[..m][..m - 1] == files[..m - 1] && files[..m][m - 1] == files[m - 1];
    if n < m - 1 { OffsetsRise(held, files, n, m - 1); }
  }

  /** Item `k` of file `n` comes before item `k'` of file `n'`. */
  ghost predicate Earlier(n: nat, k: nat, n': nat, k': nat) {
    n < n' || (n == n' && k < k')
  }

  lemma PlacesInOrder<T>(held: File -> seq<T>, files: seq<File>, n: nat, k: nat, n': nat, k': nat)
    requires n < |files| && k < |held(files[n])| && n' < |files| && k' < |held(files[n'])|
    ensures Offset(held, files, n) + k < Offset(held, files, n') + k' <==> Earlier(n, k, n', k')
  {
    if n < n' { OffsetsRise(held, files, n, n'); }
    if n' < n { OffsetsRise(held, files, n', n); }
  }

  function BindingsIn(s: Sources, f: File): seq<(Name, Expr)> {
    if f in s then s[f].bindings else []
  }

  /** All bindings of the files, in order. */
  function AllBindings(s: Sources, files: seq<File>): seq<(Name, Expr)> {
    Joint((f: File) => BindingsIn(s, f), files)
  }

  ghost predicate Binds(bs: seq<(Name, Expr)>, x: Name) {
    exists i :: 0 <= i < |bs| && bs[i].0 == x
  }

  ghost predicate BoundBefore(bs: seq<(Name, Expr)>, p: nat, x: Name) {
    exists m :: 0 <= m < p && m < |bs| && bs[m].0 == x
  }

  /** Where a name is bound, the names listed before it have been. */
  ghost predicate InTurn(bs: seq<(Name, Expr)>, entries: seq<(Name, Expr)>) {
    forall i, j, p :: 0 <= i < j < |entries| && 0 <= p < |bs| && bs[p].0 == entries[j].0 ==>
      BoundBefore(bs, p, entries[i].0)
  }

  ghost predicate EachOnce(entries: seq<(Name, Expr)>) {
    forall i, j :: 0 <= i < j < |entries| ==> entries[i].0 != entries[j].0
  }

  ghost predicate AllBound(bs: seq<(Name, Expr)>, entries: seq<(Name, Expr)>) {
    forall i :: 0 <= i < |bs| ==> Binds(entries, bs[i].0)
  }

  ghost predicate AllFirst(bs: seq<(Name, Expr)>, entries: seq<(Name, Expr)>) {
    forall i :: 0 <= i < |entries| ==> FirstAt(bs, entries[i])
  }

  /** Each name once, with its first binding, in the order in which they come first. */
  ghost predicate FirstBindings(bs: seq<(Name, Expr)>, entries: seq<(Name, Expr)>) {
    EachOnce(entries) && AllBound(bs, entries) && AllFirst(bs, entries) && InTurn(bs, entries)
  }

  ghost predicate FirstAt(bs: seq<(Name, Expr)>, entry: (Name, Expr)) {
    exists k :: 0 <= k < |bs| && bs[k] == entry && forall j :: 0 <= j < k ==> bs[j].0 != entry.0
  }

  lemma FirstStays(bs: seq<(Name, Expr)>, entry: (Name, Expr), b: (Name, Expr))
    requires FirstAt(bs, entry)
    ensures FirstAt(bs + [b], entry)
  {
    var k :| 0 <= k < |bs| && bs[k] == entry && forall j :: 0 <= j < k ==> bs[j].0 != entry.0;
    assert (bs + [b])[k] == entry;
  }

  lemma BindsMore(entries: seq<(Name, Expr)>, b: (Name, Expr), x: Name)
    ensures Binds(entries + [b], x) <==> Binds(entries, x) || x == b.0
  {
    if Binds(entries, x) {
      var i :| 0 <= i < |entries| && entries[i].0 == x;
      assert (entries + [b])[i].0 == x;
    }
    assert (entries + [b])[|entries|].0 == b.0;
  }

  lemma OneMoreBinding(bs: seq<(Name, Expr)>, entries: seq<(Name, Expr)>, b: (Name, Expr))
    requires FirstBindings(bs, entries)
    ensures FirstBindings(bs + [b], if Binds(entries, b.0) then entries else entries + [b])
  {
    OneMoreInTurn(bs, entries, b);
    OneMoreBound(bs, entries, b);
    OneMoreFirst(bs, entries, b);
    if !Binds(entries, b.0) { NewIsNew(entries, b); }
  }

  lemma NewIsNew(entries: seq<(Name, Expr)>, b: (Name, Expr))
    requires EachOnce(entries) && !Binds(entries, b.0)
    ensures EachOnce(entries + [b])
  {}

  lemma OneMoreBound(bs: seq<(Name, Expr)>, entries: seq<(Name, Expr)>, b: (Name, Expr))
    requires AllBound(bs, entries)
    ensures AllBound(bs + [b], if Binds(entries, b.0) then entries else entries + [b])
  {
    hide Binds;
    var entries' := if Binds(entries, b.0) then entries else entries + [b];
    forall i | 0 <= i < |bs + [b]| ensures Binds(entries', (bs + [b])[i].0) {
      BindsMore(entries, b, (bs + [b])[i].0);
    }
  }

  lemma OneMoreFirst(bs: seq<(Name, Expr)>, entries: seq<(Name, Expr)>, b: (Name, Expr))
    requires AllBound(bs, entries) && AllFirst(bs, entries)
    ensures AllFirst(bs + [b], if Binds(entries, b.0) then entries else entries + [b])
  {
    hide FirstAt; hide Binds; hide AllBound;
    forall i | 0 <= i < |entries| ensures FirstAt(bs + [b], entries[i]) { FirstStays(bs, entries[i], b); }
    if !Binds(entries, b.0) { NewIsFirst(bs, entries, b); }
  }

  lemma NewIsFirst(bs: seq<(Name, Expr)>, entries: seq<(Name, Expr)>, b: (Name, Expr))
    requires AllBound(bs, entries) && !Binds(entries, b.0)
    ensures FirstAt(bs + [b], b)
  {
    forall j | 0 <= j < |bs| ensures bs[j].0 != b.0 { assert Binds(entries, bs[j].0); }
    assert (bs + [b])[|bs|] == b;
  }

  lemma OneMoreInTurn(bs: seq<(Name, Expr)>, entries: seq<(Name, Expr)>, b: (Name, Expr))
    requires FirstBindings(bs, entries)
    ensures InTurn(bs + [b], if Binds(entries, b.0) then entries else entries + [b])
  {
    hide FirstAt;
    var bs', entries' := bs + [b], if Binds(entries, b.0) then entries else entries + [b];
    forall i, j, p | 0 <= i < j < |entries'| && 0 <= p < |bs'| && bs'[p].0 == entries'[j].0
      ensures BoundBefore(bs', p, entries'[i].0)
    {
      OneMoreInOrder(bs, entries, b, i, j, p);
    }
  }

  lemma OneMoreInOrder(bs: seq<(Name, Expr)>, entries: seq<(Name, Expr)>, b: (Name, Expr), i: nat, j: nat, p: nat)
    requires FirstBindings(bs, entries) && i < j && p <= |bs|
    requires var entries' := if Binds(entries, b.0) then entries else entries + [b];
             j < |entries'| && (bs + [b])[p].0 == entries'[j].0
    ensures BoundBefore(bs + [b], p, entries[i].0)
  {
    assert FirstAt(bs, entries[i]) && (p < |bs| ==> Binds(entries, bs[p].0));
    if j < |entries| {
      assert FirstAt(bs, entries[j]);
      var k :| 0 <= k < |bs| && bs[k] == entries[j];
      assert BoundBefore(bs, if p < |bs| then p else k, entries[i].0);
    }
    var m :| 0 <= m < p && m < |bs| && bs[m].0 == entries[i].0;
    assert (bs + [b])[m].0 == entries[i].0;
  }

  /** In place `k` of file `n` of the list, `x` is bound. */
  ghost predicate BindsAt(s: Sources, files: seq<File>, n: nat, k: nat, x: Name) {
    n < |files| && files[n] in s && k < |s[files[n]].bindings| && s[files[n]].bindings[k].0 == x
  }

  /** In the files up to there, `x` is bound. */
  ghost predicate BindsEarlier(s: Sources, files: seq<File>, n: nat, k: nat, x: Name) {
    exists n': nat, k': nat :: BindsAt(s, files, n', k', x) && Earlier(n', k', n, k)
  }

  /** Each name bound in the files is listed once, with the first binding there is of it, and in the order in which
      these come. */
  ghost predicate Listed(s: Sources, files: seq<File>, entries: seq<(Name, Expr)>) {
    && EachOnce(entries)
    && (forall n: nat, k: nat, x :: BindsAt(s, files, n, k, x) ==> Binds(entries, x))
    && (forall i :: 0 <= i < |entries| ==> ListedFirst(s, files, entries[i]))
    && (forall i, j, n: nat, k: nat {:trigger entries[i], BindsAt(s, files, n, k, entries[j].0)} ::
          0 <= i < j < |entries| && BindsAt(s, files, n, k, entries[j].0) ==>
          BindsEarlier(s, files, n, k, entries[i].0))
  }

  ghost predicate ListedFirst(s: Sources, files: seq<File>, entry: (Name, Expr)) {
    exists n: nat, k: nat ::
      BindsAt(s, files, n, k, entry.0) && s[files[n]].bindings[k] == entry && !BindsEarlier(s, files, n, k, entry.0)
  }

  lemma PlacedAt(s: Sources, files: seq<File>, n: nat, k: nat, x: Name) returns (p: nat)
    requires BindsAt(s, files, n, k, x)
    ensures var held := (f: File) => BindingsIn(s, f); p == Offset(held, files, n) + k
    ensures p < |AllBindings(s, files)| && AllBindings(s, files)[p] == s[files[n]].bindings[k]
  {
    var held := (f: File) => BindingsIn(s, f);
    PlaceOf(held, files, n, k);
    p := Offset(held, files, n) + k;
  }

  lemma FirstListed(s: Sources, files: seq<File>, entries: seq<(Name, Expr)>, i: nat)
    requires FirstBindings(AllBindings(s, files), entries) && i < |entries|
    ensures ListedFirst(s, files, entries[i])
  {
    var bs, held := AllBindings(s, files), (f: File) => BindingsIn(s, f);
    assert FirstAt(bs, entries[i]);
    var p :| 0 <= p < |bs| && bs[p] == entries[i] && forall j :: 0 <= j < p ==> bs[j].0 != entries[i].0;
    var n, k := PlaceIn(held, files, p);
    assert BindsAt(s, files, n, k, entries[i].0);
    forall n': nat, k': nat | BindsAt(s, files, n', k', entries[i].0) ensures !Earlier(n', k', n, k) {
      var p' := PlacedAt(s, files, n', k', entries[i].0);
      PlacesInOrder(held, files, n', k', n, k);
    }
  }

  lemma ListedInTurn(s: Sources, files: seq<File>, entries: seq<(Name, Expr)>, i: nat, j: nat, n: nat, k: nat)
    requires FirstBindings(AllBindings(s, files), entries) && i < j < |entries|
    requires BindsAt(s, files, n, k, entries[j].0)
    ensures BindsEarlier(s, files, n, k, entries[i].0)
  {
    var bs, held := AllBindings(s, files), (f: File) => BindingsIn(s, f);
    var p := PlacedAt(s, files, n, k, entries[j].0);
    assert BoundBefore(bs, p, entries[i].0);
    var m :| 0 <= m < p && m < |bs| && bs[m].0 == entries[i].0;
    var n', k' := PlaceIn(held, files, m);
    PlacesInOrder(held, files, n', k', n, k);
    assert BindsAt(s, files, n', k', entries[i].0);
  }

  lemma AllListed(s: Sources, files: seq<File>, entries: seq<(Name, Expr)>)
    requires FirstBindings(AllBindings(s, files), entries)
    ensures Listed(s, files, entries)
  {
    hide AllBindings; hide ListedFirst; hide BindsEarlier; hide InTurn;
    forall n: nat, k: nat, x | BindsAt(s, files, n, k, x) ensures Binds(entries, x) {
      var p := PlacedAt(s, files, n, k, x);
    }
    forall i | 0 <= i < |entries| ensures ListedFirst(s, files, entries[i]) { FirstListed(s, files, entries, i); }
    forall i, j, n: nat, k: nat | 0 <= i < j < |entries| && BindsAt(s, files, n, k, entries[j].0)
      ensures BindsEarlier(s, files, n, k, entries[i].0)
    {
      ListedInTurn(s, files, entries, i, j, n, k);
    }
  }

  ghost predicate SeenOk(entries: seq<(Name, Expr)>, seen: set<Name>) {
    forall x :: x in seen <==> Binds(entries, x)
  }

  lemma SeenMore(entries: seq<(Name, Expr)>, seen: set<Name>, b: (Name, Expr))
    requires SeenOk(entries, seen)
    ensures SeenOk(entries + [b], seen + {b.0})
  {
    hide Binds;
    forall x ensures x in seen + {b.0} <==> Binds(entries + [b], x) { BindsMore(entries, b, x); }
  }

  /** Takes over the bindings of one file; a name bound before keeps its binding. */
  method MergeBindings(bindings: seq<(Name, Expr)>, entries: seq<(Name, Expr)>, seen: set<Name>,
      ghost before: seq<(Name, Expr)>)
    returns (entries': seq<(Name, Expr)>, seen': set<Name>)
    requires FirstBindings(before, entries) && SeenOk(entries, seen)
    ensures FirstBindings(before + bindings, entries') && SeenOk(entries', seen')
  {
    hide FirstBindings; hide SeenOk;
    entries', seen' := entries, seen;
    assert before + bindings[..0] == before;
    for i := 0 to |bindings|
      invariant FirstBindings(before + bindings[..i], entries') && SeenOk(entries', seen')
    {
      var b := bindings[i];
      OneMoreBinding(before + bindings[..i], entries', b);
      SeenSays(entries', seen', b.0);
      SeenMore(entries', seen', b);
      assert before + bindings[..i] + [b] == before + bindings[..i + 1];
      if b.0 !in seen' {
        seen' := seen' + {b.0};
        entries' := entries' + [b];
      }
    }
    assert bindings[..|bindings|] == bindings;
  }

  lemma SeenSays(entries: seq<(Name, Expr)>, seen: set<Name>, x: Name)
    requires SeenOk(entries, seen)
    ensures x in seen <==> Binds(entries, x)
  {}

  /** No file twice, and none before one nearer to the root. */
  ghost predicate BreadthFirst(s: Sources, resolve: (File, string) -> File, root: File, order: seq<File>) {
    && (forall i, j :: 0 <= i < j < |order| ==> order[i] != order[j])
    && (forall i, j, n: nat {:trigger Within(s, resolve, root, n, order[j]), order[i]} ::
          0 <= i < j < |order| && Within(s, resolve, root, n, order[j]) ==> Within(s, resolve, root, n, order[i]))
  }

  // ---------------------------------------------------------------------------------------------
  // The order files are read in

  /** The files `f` includes, in the order of its include lines. */
  function Targets(s: Sources, resolve: (File, string) -> File, f: File): seq<File> {
    if f in s then seq(|s[f].includes|, i requires 0 <= i < |s[f].includes| => resolve(f, s[f].includes[i])) else []
  }

  function AllTargets(s: Sources, resolve: (File, string) -> File, files: seq<File>): seq<File> {
    Joint((f: File) => Targets(s, resolve, f), files)
  }

  /** The candidates not known before, each where it comes first. */
  function FirstNew(candidates: seq<File>, known: set<File>): seq<File> {
    if candidates == [] then []
    else
      var before, last := FirstNew(candidates[..|candidates| - 1], known), candidates[|candidates| - 1];
      if last in known || last in before then before else before + [last]
  }

  /** Level 0 is the root; the next is what the files of one level include, in order, and no level before
      had. */
  function Level(s: Sources, resolve: (File, string) -> File, root: File, d: nat): seq<File>
    decreases d, 1
  {
    if d == 0 then [root]
    else FirstNew(AllTargets(s, resolve, Level(s, resolve, root, d - 1)), Elements(Levels(s, resolve, root, d)))
  }

  /** The first `d` levels. */
  function Levels(s: Sources, resolve: (File, string) -> File, root: File, d: nat): seq<File>
    decreases d, 0
  {
    if d == 0 then [] else Levels(s, resolve, root, d - 1) + Level(s, resolve, root, d - 1)
  }

  lemma OneTargetMore(s: Sources, resolve: (File, string) -> File, queue: seq<File>, k: nat)
    requires k < |queue|
    ensures AllTargets(s, resolve, queue[..k + 1]) == AllTargets(s, resolve, queue[..k]) + Targets(s, resolve, queue[k])
  {
    assert queue[..k + 1] == queue[..k] + [queue[k]];
    JointMore((f: File) => Targets(s, resolve, f), queue[..k], queue[k]);
  }

  lemma FirstNewMore(candidates: seq<File>, known: set<File>, f: File)
    ensures FirstNew(candidates + [f], known) ==
            var before := FirstNew(candidates, known); if f in known || f in before then before else before + [f]
  {
    assert (candidates + [f])[..|candidates|] == candidates;
  }

  lemma EmptyNext(s: Sources, resolve: (File, string) -> File, root: File, n: nat)
    requires Level(s, resolve, root, n) == []
    ensures Level(s, resolve, root, n + 1) == [] && Levels(s, resolve, root, n + 1) == Levels(s, resolve, root, n)
  {
    assert AllTargets(s, resolve, []) == [];
    NothingNew(Elements(Levels(s, resolve, root, n + 1)));
    hide FirstNew;
  }

  /** After an empty level there are no more. */
  lemma {:induction false} LevelsEnd(s: Sources, resolve: (File, string) -> File, root: File, d: nat, n: nat)
    requires Level(s, resolve, root, d) == [] && d <= n
    ensures Level(s, resolve, root, n) == [] && Levels(s, resolve, root, n) == Levels(s, resolve, root, d)
  {
    hide Level; hide Levels;
    if d < n {
      LevelsEnd(s, resolve, root, d, n - 1);
      EmptyNext(s, resolve, root, n - 1);
    }
  }

  /** Include line `k` of file `n` of the list leads to `f`. */
  ghost predicate IncludesAt(s: Sources, resolve: (File, string) -> File, files: seq<File>, n: nat, k: nat, f: File) {
    n < |files| && files[n] in s && k < |s[files[n]].includes| && resolve(files[n], s[files[n]].includes[k]) == f
  }

  /** An include line before that leads to `f`. */
  ghost predicate IncludedEarlier(s: Sources, resolve: (File, string) -> File, files: seq<File>, n: nat, k: nat,
      f: File)
  {
    exists n': nat, k': nat :: IncludesAt(s, resolve, files, n', k', f) && Earlier(n', k', n, k)
  }

  /** Whatever comes later among the new ones comes later among the candidates. */
  lemma {:induction false} FirstNewInOrder(candidates: seq<File>, known: set<File>, i: nat, j: nat, p: nat)
    requires i < j < |FirstNew(candidates, known)|
    requires p < |candidates| && candidates[p] == FirstNew(candidates, known)[j]
    ensures exists m :: 0 <= m < p && candidates[m] == FirstNew(candidates, known)[i]
    decreases |candidates|
  {
    var n := |candidates| - 1;
    var before := FirstNew(candidates[..n], known);
    FirstNewFound(candidates[..n], known);
    assert p < n ==> candidates[p] in candidates[..n];
    if j < |before| {
      assert before[j] in candidates[..n] && before[i] == FirstNew(candidates, known)[i];
      var q :| 0 <= q < n && candidates[q] == before[j];
      var q' := if p < n then p else q;
      FirstNewInOrder(candidates[..n], known, i, j, q');
      var m :| 0 <= m < q' && candidates[..n][m] == before[i];
      assert candidates[m] == before[i];
    } else {
      assert before[i] in candidates[..n];
      var m :| 0 <= m < n && candidates[..n][m] == before[i];
      assert candidates[m] == before[i];
    }
  }

  lemma {:induction false} FirstNewFound(candidates: seq<File>, known: set<File>)
    ensures forall f :: f in FirstNew(candidates, known) <==> f in candidates && f !in known
  {
    if candidates != [] {
      FirstNewFound(candidates[..|candidates| - 1], known);
      assert candidates == candidates[..|candidates| - 1] + [candidates[|candidates| - 1]];
    }
  }

  /** The files of a level stand in the order of the include lines that lead to them first. */
  lemma LevelInOrder(s: Sources, resolve: (File, string) -> File, root: File, d: nat, i: nat, j: nat, n: nat, k: nat)
    requires i < j < |Level(s, resolve, root, d + 1)|
    requires IncludesAt(s, resolve, Level(s, resolve, root, d), n, k, Level(s, resolve, root, d + 1)[j])
    ensures IncludedEarlier(s, resolve, Level(s, resolve, root, d), n, k, Level(s, resolve, root, d + 1)[i])
  {
    var files, next := Level(s, resolve, root, d), Level(s, resolve, root, d + 1);
    var held := (f: File) => Targets(s, resolve, f);
    var known := Elements(Levels(s, resolve, root, d + 1));
    var p := Offset(held, files, n) + k;
    PlaceOf(held, files, n, k);
    hide Levels;
    FirstNewInOrder(AllTargets(s, resolve, files), known, i, j, p);
    var m :| 0 <= m < p && AllTargets(s, resolve, files)[m] == next[i];
    var n', k' := PlaceIn(held, files, m);
    PlacesInOrder(held, files, n', k', n, k);
    assert IncludesAt(s, resolve, files, n', k', next[i]);
  }

  /** Found `d` includes away and not sooner. */
  ghost predicate AtLevel(s: Sources, resolve: (File, string) -> File, root: File, d: nat, f: File) {
    Within(s, resolve, root, d, f) && (d > 0 ==> !Within(s, resolve, root, d - 1, f))
  }

  ghost predicate Reached(s: Sources, resolve: (File, string) -> File, root: File, d: nat, order: seq<File>,
      done: seq<File>) {
    forall f :: f in order <==> (d > 0 && Within(s, resolve, root, d - 1, f)) || f in done
  }

  lemma OneMoreFile(s: Sources, resolve: (File, string) -> File, root: File, d: nat, order: seq<File>,
      queue: seq<File>, k: nat)
    requires k < |queue| && BreadthFirst(s, resolve, root, order) && Reached(s, resolve, root, d, order, queue[..k])
    requires (forall i, j :: 0 <= i < j < |queue| ==> queue[i] != queue[j])
    requires forall f :: f in queue ==> AtLevel(s, resolve, root, d, f)
    ensures BreadthFirst(s, resolve, root, order + [queue[k]])
    ensures Reached(s, resolve, root, d, order + [queue[k]], queue[..k + 1])
  {
    var f, order' := queue[k], order + [queue[k]];
    assert f in queue && queue[..k + 1] == queue[..k] + [f];
    assert f !in queue[..k];
    forall i, n: nat | 0 <= i < |order| && Within(s, resolve, root, n, f)
      ensures Within(s, resolve, root, n, order[i])
    {
      if n < d { WithinMore(s, resolve, root, n, d - 1, f); }
      var g := order[i];
      assert g in order;
      if d > 0 && Within(s, resolve, root, d - 1, g) {
        WithinMore(s, resolve, root, d - 1, n, g);
      } else {
        assert g in queue;
        WithinMore(s, resolve, root, d, n, g);
      }
    }
  }

  /** `nxt` are the files that the first `k` of the queue, and the first `m` includes of the next, lead to
      and that were not visited before. */
  ghost predicate Led(s: Sources, resolve: (File, string) -> File, before: set<File>, queue: seq<File>, k: nat, m: nat,
      f: File)
    requires k <= |queue|
  {
    f !in before
    && ((exists g :: g in queue[..k] && Includes(s, resolve, g, f))
        || (k < |queue| && queue[k] in s && m <= |s[queue[k]].includes|
            && exists i :: 0 <= i < m && resolve(queue[k], s[queue[k]].includes[i]) == f))
  }

  ghost predicate Frontier(s: Sources, resolve: (File, string) -> File, before: set<File>, queue: seq<File>, k: nat,
      m: nat,
      visited: set<File>, nxt: seq<File>)
    requires k <= |queue|
  {
    && (forall i, j :: 0 <= i < j < |nxt| ==> nxt[i] != nxt[j])
    && (forall f :: f in nxt <==> Led(s, resolve, before, queue, k, m, f))
    && (forall f :: f in visited <==> f in before || f in nxt)
  }

  /** Queues what one file includes, unless visited before. */
  method QueueIncludes(s: Sources, resolve: (File, string) -> File, ghost before: set<File>, queue: seq<File>, k: nat,
      visited: set<File>, nxt: seq<File>) returns (visited': set<File>, nxt': seq<File>)
    requires k < |queue| && queue[k] in s && Frontier(s, resolve, before, queue, k, 0, visited, nxt)
    requires nxt == FirstNew(AllTargets(s, resolve, queue[..k]), before)
    ensures Frontier(s, resolve, before, queue, k + 1, 0, visited', nxt')
    ensures nxt' == FirstNew(AllTargets(s, resolve, queue[..k + 1]), before)
  {
    hide Led; hide FirstNew; hide Frontier; hide AllTargets;
    visited', nxt' := visited, nxt;
    var current := queue[k];
    ghost var earlier, targets := AllTargets(s, resolve, queue[..k]), Targets(s, resolve, current);
    assert earlier + targets[..0] == earlier;
    for m := 0 to |s[current].includes|
      invariant Frontier(s, resolve, before, queue, k, m, visited', nxt')
      invariant nxt' == FirstNew(earlier + targets[..m], before)
    {
      var resolved := resolve(current, s[current].includes[m]);
      assert targets[m] == resolved;
      FirstNewMore(earlier + targets[..m], before, targets[m]);
      assert earlier + targets[..m + 1] == earlier + targets[..m] + [targets[m]];
      OneInclude(s, resolve, before, queue, k, m, visited', nxt');
      if resolved !in visited' {
        visited' := visited' + {resolved};
        nxt' := nxt' + [resolved];
      }
    }
    NextFrontier(s, resolve, before, queue, k, visited', nxt');
    OneTargetMore(s, resolve, queue, k);
    assert targets[..|targets|] == targets;
  }

  lemma OneInclude(s: Sources, resolve: (File, string) -> File, before: set<File>, queue: seq<File>, k: nat, m: nat,
      visited: set<File>, nxt: seq<File>)
    requires k < |queue| && queue[k] in s && m < |s[queue[k]].includes|
    requires Frontier(s, resolve, before, queue, k, m, visited, nxt)
    ensures var resolved := resolve(queue[k], s[queue[k]].includes[m]);
            if resolved in visited then resolved in before || resolved in nxt
            else resolved !in before && resolved !in nxt
    ensures var resolved := resolve(queue[k], s[queue[k]].includes[m]);
            Frontier(s, resolve, before, queue, k, m + 1, if resolved in visited then visited else visited + {resolved},
              if resolved in visited then nxt else nxt + [resolved])
  {
    var resolved := resolve(queue[k], s[queue[k]].includes[m]);
    forall f ensures Led(s, resolve, before, queue, k, m + 1, f) <==>
      Led(s, resolve, before, queue, k, m, f) || (f !in before && f == resolved) {}
  }

  /** Past all includes of one file, the next is up. */
  lemma LedThrough(s: Sources, resolve: (File, string) -> File, before: set<File>, queue: seq<File>, k: nat, f: File)
    requires k < |queue|
    ensures Led(s, resolve, before, queue, k + 1, 0, f) <==>
      Led(s, resolve, before, queue, k, if queue[k] in s then |s[queue[k]].includes| else 0, f)
  {
    assert queue[..k + 1] == queue[..k] + [queue[k]];
    if Includes(s, resolve, queue[k], f) { assert queue[k] in queue[..k + 1]; }
    if g :| g in queue[..k] && Includes(s, resolve, g, f) { assert g in queue[..k + 1]; }
  }

  lemma NextFrontier(s: Sources, resolve: (File, string) -> File, before: set<File>, queue: seq<File>, k: nat,
      visited: set<File>, nxt: seq<File>)
    requires k < |queue|
    requires Frontier(s, resolve, before, queue, k, if queue[k] in s then |s[queue[k]].includes| else 0, visited, nxt)
    ensures Frontier(s, resolve, before, queue, k + 1, 0, visited, nxt)
  {
    forall f ensures f in nxt <==>
      Led(s, resolve, before, queue, k + 1, 0, f) { LedThrough(s, resolve, before, queue, k, f); }
  }

  /** About to read the files `d` includes away: everything nearer has been read, breadth first. */
  ghost predicate AtDepth(s: Sources, resolve: (File, string) -> File, root: File, d: nat, queue: seq<File>,
      visited: set<File>,
      order: seq<File>)
  {
    && (forall i, j :: 0 <= i < j < |queue| ==> queue[i] != queue[j])
    && (forall f :: f in queue <==> AtLevel(s, resolve, root, d, f))
    && (forall f :: f in visited <==> Within(s, resolve, root, d, f))
    && Reached(s, resolve, root, d, order, []) && BreadthFirst(s, resolve, root, order)
    && queue == Level(s, resolve, root, d) && order == Levels(s, resolve, root, d)
  }

  ghost predicate Merged(s: Sources, order: seq<File>, entries: seq<(Name, Expr)>, seen: set<Name>) {
    FirstBindings(AllBindings(s, order), entries) && SeenOk(entries, seen)
  }

  lemma NextDepth(s: Sources, resolve: (File, string) -> File, root: File, d: nat, queue: seq<File>, before: set<File>,
      order: seq<File>, nxt: seq<File>, visited: set<File>, order': seq<File>)
    requires AtDepth(s, resolve, root, d, queue, before, order)
    requires Frontier(s, resolve, before, queue, |queue|, 0, visited, nxt)
    requires Reached(s, resolve, root, d, order', queue) && BreadthFirst(s, resolve, root, order')
    requires order' == order + queue && nxt == FirstNew(AllTargets(s, resolve, queue), before)
    ensures AtDepth(s, resolve, root, d + 1, nxt, visited, order')
  {
    assert queue[..|queue|] == queue;
    forall f ensures f in nxt <==> AtLevel(s, resolve, root, d + 1, f) {
      assert f in nxt <==> Led(s, resolve, before, queue, |queue|, 0, f);
      if AtLevel(s, resolve, root, d + 1, f) {
        var g :| Within(s, resolve, root, d, g) && Includes(s, resolve, g, f);
        assert g in queue;
      }
    }
    forall f ensures f in order' <==> Within(s, resolve, root, d, f) {}
    assert Elements(Levels(s, resolve, root, d + 1)) == before;
  }

  lemma AllBindingsMore(s: Sources, order: seq<File>, f: File)
    ensures AllBindings(s, order + [f]) == AllBindings(s, order) + if f in s then s[f].bindings else []
  {
    JointMore((g: File) => BindingsIn(s, g), order, f);
  }

  /** Reads the files of one level. */
  method ReadLevel(s: Sources, resolve: (File, string) -> File, ghost root: File, ghost d: nat, queue: seq<File>,
      visited: set<File>,
      entries: seq<(Name, Expr)>, seen: set<Name>, ghost order: seq<File>)
    returns (nxt: seq<File>, visited': set<File>, entries': seq<(Name, Expr)>, seen': set<Name>,
      ghost order': seq<File>)
    requires AtDepth(s, resolve, root, d, queue, visited, order) && Merged(s, order, entries, seen)
    ensures AtDepth(s, resolve, root, d + 1, nxt, visited', order') && Merged(s, order', entries', seen')
  {
    hide Within; hide AtLevel; hide BreadthFirst; hide Led; hide FirstBindings; hide SeenOk; hide AllBindings;
    hide Reached; hide FirstNew; hide Level; hide Levels;
    nxt, visited', entries', seen', order' := [], visited, entries, seen, order;
    NothingLed(s, resolve, visited, queue);
    NothingNew(visited);
    assert queue[..0] == [] && order + [] == order;
    for k := 0 to |queue|
      invariant Frontier(s, resolve, visited, queue, k, 0, visited', nxt)
      invariant BreadthFirst(s, resolve, root, order') && Reached(s, resolve, root, d, order', queue[..k])
      invariant Merged(s, order', entries', seen') && order' == order + queue[..k]
      invariant nxt == FirstNew(AllTargets(s, resolve, queue[..k]), visited)
    {
      assert queue[..k + 1] == queue[..k] + [queue[k]];
      var current := queue[k];
      OneMoreFile(s, resolve, root, d, order', queue, k);
      AllBindingsMore(s, order', current);
      ghost var before := AllBindings(s, order');
      order' := order' + [current];
      if current !in s {
        assert before + [] == before;
        OneTargetMore(s, resolve, queue, k);
        assert AllTargets(s, resolve, queue[..k + 1]) == AllTargets(s, resolve, queue[..k]);
        NextFrontier(s, resolve, visited, queue, k, visited', nxt);
        continue;
      }
      entries', seen' := MergeBindings(s[current].bindings, entries', seen', before);
      visited', nxt := QueueIncludes(s, resolve, visited, queue, k, visited', nxt);
    }
    assert queue[..|queue|] == queue;
    NextDepth(s, resolve, root, d, queue, visited, order, nxt, visited', order');
  }

  lemma NothingNew(known: set<File>)
    ensures FirstNew([], known) == []
  {}

  lemma NothingLed(s: Sources, resolve: (File, string) -> File, before: set<File>, queue: seq<File>)
    ensures Frontier(s, resolve, before, queue, 0, 0, before, [])
  {}

  /** The bindings of the root file and of the files it includes, down to the depth limit. The files are read
      level by level, in the order of the include lines, each once; exactly those at most 63 includes away. Each
      name is listed once, with the first binding met in that order. */
  method BindingTable(s: Sources, resolve: (File, string) -> File, root: File)
    returns (entries: seq<(Name, Expr)>)
    ensures Listed(s, Levels(s, resolve, root, MAX_INCLUDE_DEPTH), entries)
    ensures BreadthFirst(s, resolve, root, Levels(s, resolve, root, MAX_INCLUDE_DEPTH))
    ensures forall f :: f in Levels(s, resolve, root, MAX_INCLUDE_DEPTH) <==> Within(s, resolve, root, 63, f)
  {
    hide BreadthFirst; hide FirstBindings; hide SeenOk; hide AllBindings; hide Within; hide AtLevel; hide Listed;
    var queue, visited, seen := [root], {root}, {};
    entries := [];
    ghost var order: seq<File> := [];
    RootFirst(s, resolve, root);
    var depth := 0;
    while queue != [] && depth < MAX_INCLUDE_DEPTH
      invariant depth <= MAX_INCLUDE_DEPTH && AtDepth(s, resolve, root, depth, queue, visited, order)
      invariant Merged(s, order, entries, seen)
      decreases MAX_INCLUDE_DEPTH - depth
    {
      queue, visited, entries, seen, order := ReadLevel(s, resolve, root, depth, queue, visited, entries, seen, order);
      depth := depth + 1;
    }
    AllRead(s, resolve, root, depth, queue, visited, order);
    if queue == [] { LevelsEnd(s, resolve, root, depth, MAX_INCLUDE_DEPTH); }
    AllListed(s, order, entries);
  }

  lemma RootFirst(s: Sources, resolve: (File, string) -> File, root: File)
    ensures AtDepth(s, resolve, root, 0, [root], {root}, []) && Merged(s, [], [], {})
  {}

  lemma AllRead(s: Sources, resolve: (File, string) -> File, root: File, depth: nat, queue: seq<File>,
      visited: set<File>, order: seq<File>)
    requires AtDepth(s, resolve, root, depth, queue, visited, order) && depth <= MAX_INCLUDE_DEPTH
    requires queue == [] || depth == MAX_INCLUDE_DEPTH
    ensures forall f :: f in order <==> Within(s, resolve, root, MAX_INCLUDE_DEPTH - 1, f)
  {
    if queue == [] {
      assert depth > 0;
      forall g ensures Within(s, resolve, root, depth, g) ==> Within(s, resolve, root, depth - 1, g) {
        assert g !in queue;
      }
      forall f ensures f in order <==> Within(s, resolve, root, MAX_INCLUDE_DEPTH - 1, f) {
        if Within(s, resolve, root, depth - 1, f) { WithinMore(s, resolve, root, depth - 1, MAX_INCLUDE_DEPTH - 1, f); }
        if Within(s, resolve, root, MAX_INCLUDE_DEPTH - 1, f) {
          WithinStable(s, resolve, root, depth - 1, MAX_INCLUDE_DEPTH - 1, f);
        }
      }
    }
  }
}
