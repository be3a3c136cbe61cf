/** Where the parser goes on after an error (syntax/parser.go). */
module Recovery {
  import opened Lexing
  import opened Ast
  import opened Grammar
  import opened LexRoundTrip
  import opened Reading
  import opened TypeText
  import opened Wrappers

  // ----- skipping -----

  /** The first position from p on at which a token of the kinds comes next, or EOF. */
  function SkipTo(toks: seq<Token>, p: nat, kinds: set<Kind>): (q: nat)
    requires p <= |toks|
    ensures p <= q <= |toks| && (KindAt(toks, q) in kinds || KindAt(toks, q) == EOF)
    decreases |toks| - p
  {
    if KindAt(toks, p) in kinds || KindAt(toks, p) == EOF then p else SkipTo(toks, Past(toks, p), kinds)
  }

  /** Separators and closing brackets. */
  const STOPS: set<Kind> := {Comma, Semicolon, RBrace, RParen, RBracket}

  /** Where a malformed field is given up. */
  const FIELD_STOPS: set<Kind> := {Comma, Semicolon, RBrace, RParen}

  lemma StopsAre()
    ensures STOPS == {Comma, Semicolon, RBrace, RParen, RBracket} && FIELD_STOPS == {Comma, Semicolon, RBrace, RParen}
  {
  }

  predicate Separator(k: Kind) {
    k == Comma || k == Semicolon
  }

  lemma OpensAre()
    ensures Opens(LBrace) && Opens(LBracket) && Opens(LParen) && Opens(Lt)
  {
  }

  predicate Opens(k: Kind) {
    k == LBrace || k == LBracket || k == LParen || k == Lt
  }

  /** Where a list goes on after a malformed entry: behind the next separator, or at its terminator. */
  function RecoverTo(toks: seq<Token>, p: nat, term: Kind): (q: nat)
    requires p <= |toks|
    ensures p <= q <= |toks|
  {
    var q := SkipTo(toks, p, {Comma, Semicolon, term});
    if KindAt(toks, q) == term || KindAt(toks, q) == EOF then q else Past(toks, q)
  }

  lemma SkipStep(toks: seq<Token>, p: nat, kinds: set<Kind>)
    requires p <= |toks|
    ensures KindAt(toks, p) in kinds || KindAt(toks, p) == EOF ==> SkipTo(toks, p, kinds) == p
    ensures KindAt(toks, p) !in kinds && KindAt(toks, p) != EOF ==>
              p < Past(toks, p) <= |toks| && SkipTo(toks, p, kinds) == SkipTo(toks, Past(toks, p), kinds)
  {
    hide KindAt, Past;
  }

  // ----- what is consumed -----

  ghost predicate OpenerBetween(toks: seq<Token>, p: nat, i: nat) {
    exists j :: p <= j < i && j < |toks| && Opens(toks[j].kind)
  }

  /** From p to q no token of the stops is consumed but behind an opening bracket. */
  ghost predicate Guarded(toks: seq<Token>, p: nat, q: nat, stops: set<Kind>) {
    forall i :: p <= i < q && RealAt(toks, i) && toks[i].kind in stops ==> OpenerBetween(toks, p, i)
  }

  lemma GuardedNone(toks: seq<Token>, p: nat, stops: set<Kind>)
    ensures Guarded(toks, p, p, stops)
  {
  }

  lemma GuardedThen(toks: seq<Token>, p: nat, q: nat, r: nat, stops: set<Kind>)
    requires Guarded(toks, p, q, stops) && Guarded(toks, q, r, stops) && p <= q
    ensures Guarded(toks, p, r, stops)
  {
    forall i | p <= i < r && RealAt(toks, i) && toks[i].kind in stops ensures OpenerBetween(toks, p, i) {
      if i >= q {
        assert OpenerBetween(toks, q, i);
      }
    }
  }

  lemma GuardedLess(toks: seq<Token>, p: nat, q: nat, stops: set<Kind>, less: set<Kind>)
    requires Guarded(toks, p, q, stops) && less <= stops
    ensures Guarded(toks, p, q, less)
  {
    hide OpenerBetween;
  }

  /** Between a position and the next real token there are only comments. */
  lemma {:induction false} OnlyNext(toks: seq<Token>, p: nat, i: nat)
    requires p <= i < |toks| && RealAt(toks, i)
    ensures p <= NextReal(toks, p) <= i && KindAt(toks, p) == toks[NextReal(toks, p)].kind
    decreases |toks| - p
  {
    if IsComment(toks[p].kind) {
      OnlyNext(toks, p + 1, i);
    }
  }

  /** One token. */
  lemma GuardedToken(toks: seq<Token>, p: nat, stops: set<Kind>)
    requires p <= |toks| && KindAt(toks, p) !in stops
    ensures Guarded(toks, p, Past(toks, p), stops)
  {
    forall i | p <= i < Past(toks, p) && RealAt(toks, i) ensures toks[i].kind !in stops {
      OnlyNext(toks, p, i);
    }
  }

  /** Whatever follows an opening bracket. */
  lemma GuardedOpener(toks: seq<Token>, p: nat, q: nat, stops: set<Kind>)
    requires p <= |toks| && Opens(KindAt(toks, p)) && KindAt(toks, p) !in stops
    ensures Guarded(toks, p, q, stops)
  {
    hide KindAt, Opens, OpenerBetween;
    forall i | p <= i < q && RealAt(toks, i) && toks[i].kind in stops ensures OpenerBetween(toks, p, i) {
      OpenerFirst(toks, p, i);
    }
  }

  lemma OpenerFirst(toks: seq<Token>, p: nat, i: nat)
    requires p <= i < |toks| && RealAt(toks, i) && Opens(KindAt(toks, p)) && toks[i].kind != KindAt(toks, p)
    ensures OpenerBetween(toks, p, i)
  {
    hide Opens;
    OnlyNext(toks, p, i);
  }

  /** Skipping to the stops. */
  lemma {:induction false} GuardedSkip(toks: seq<Token>, p: nat, kinds: set<Kind>, stops: set<Kind>)
    requires p <= |toks| && stops <= kinds
    ensures Guarded(toks, p, SkipTo(toks, p, kinds), stops)
    decreases |toks| - p
  {
    hide KindAt, Past, Guarded, SkipTo;
    SkipStep(toks, p, kinds);
    GuardedNone(toks, p, stops);
    if KindAt(toks, p) !in kinds && KindAt(toks, p) != EOF {
      GuardedToken(toks, p, stops);
      GuardedSkip(toks, Past(toks, p), kinds, stops);
      GuardedThen(toks, p, Past(toks, p), SkipTo(toks, p, kinds), stops);
    }
  }

  // ----- malformed entries -----

  /** The real tokens from p up to s are none of the stops, no opening brackets and not EOF. */
  ghost predicate Plain(toks: seq<Token>, p: nat, s: nat, stops: set<Kind>) {
    forall i :: p <= i < s && RealAt(toks, i) ==> toks[i].kind !in stops && !Opens(toks[i].kind) && toks[i].kind != EOF
  }

  /** From p on, tokens without brackets that open, up to the separator or the terminator s. */
  ghost predicate Fence(toks: seq<Token>, p: nat, s: nat, term: Kind) {
    && p <= s && RealAt(toks, s) && (Separator(toks[s].kind) || toks[s].kind == term)
    && Plain(toks, p, s, {Comma, Semicolon, term})
  }

  /** Behind a separator, or at the terminator. */
  function Behind(toks: seq<Token>, s: nat, term: Kind): nat
    requires s < |toks|
  {
    if toks[s].kind == term then s else s + 1
  }

  /** The position behind a separator, if one comes next. */
  function AfterSeparator(toks: seq<Token>, p: nat): (q: nat)
    ensures p <= q && (p <= |toks| ==> q <= |toks|)
  {
    if Separator(KindAt(toks, p)) then Past(toks, p) else p
  }

  lemma SeparatorNext(toks: seq<Token>, p: nat)
    ensures AfterSeparator(toks, p) ==
            if KindAt(toks, p) == Comma || KindAt(toks, p) == Semicolon then Past(toks, p) else p
  {
  }

  /** Where the entry at p ends; values are separated by their list. */
  function EntryEnd(toks: seq<Token>, p: nat, category: Category): (q: nat)
    requires p <= |toks| && NodeAt(toks, p, category).Some?
    ensures p < q <= |toks|
  {
    var q := NodeAt(toks, p, category).value.next;
    if category == ValueNode then AfterSeparator(toks, q) else q
  }

  lemma EntryEndIs(toks: seq<Token>, p: nat, category: Category)
    requires p <= |toks|
    ensures NodeAt(toks, p, category).Some? ==>
              var q := NodeAt(toks, p, category).value.next;
              EntryEnd(toks, p, category) == if category == ValueNode then AfterSeparator(toks, q) else q
  {
    hide NodeAt;
  }

  /** A list of entries of the category that stands at p comes to q: over well-formed entries, and over tokens that
      need not be entries but open no bracket, up to behind the next separator or to the terminator. */
  ghost predicate ComesTo(toks: seq<Token>, p: nat, q: nat, category: Category, term: Kind)
    decreases Room(toks, p), 1
  {
    p <= |toks| && (p == q || OverEntry(toks, p, q, category, term) || OverFence(toks, p, q, category, term))
  }

  ghost predicate OverEntry(toks: seq<Token>, p: nat, q: nat, category: Category, term: Kind)
    requires p <= |toks|
    decreases Room(toks, p), 0
  {
    && KindAt(toks, p) != term && NodeAt(toks, p, category).Some?
    && ComesTo(toks, EntryEnd(toks, p, category), q, category, term)
  }

  ghost predicate OverFence(toks: seq<Token>, p: nat, q: nat, category: Category, term: Kind)
    requires p <= |toks|
    decreases Room(toks, p), 0
  {
    exists s :: Fence(toks, p, s, term) && p < Behind(toks, s, term)
                && ComesTo(toks, Behind(toks, s, term), q, category, term)
  }

  /** None of the stops is consumed but behind an opening bracket, or a separator last. */
  ghost predicate Ended(toks: seq<Token>, p: nat, q: nat, stops: set<Kind>) {
    || Guarded(toks, p, q, stops)
    || (p < q <= |toks| && RealAt(toks, q - 1) && Separator(toks[q - 1].kind) && Guarded(toks, p, q - 1, stops))
  }

  /** What one turn of the loop may consume. */
  ghost predicate Turn(toks: seq<Token>, p: nat, q: nat, term: Kind) {
    Ended(toks, p, q, {Comma, Semicolon, term})
  }

  lemma TurnIs(toks: seq<Token>, p: nat, q: nat, term: Kind)
    ensures Turn(toks, p, q, term) == Ended(toks, p, q, {Comma, Semicolon, term})
  {
  }

  lemma NoSeparators()
    ensures !Separator(RParen) && !Separator(RBrace) && !Separator(RBracket)
  {
  }

  lemma EndedLess(toks: seq<Token>, p: nat, q: nat, stops: set<Kind>, less: set<Kind>)
    requires Ended(toks, p, q, stops) && less <= stops
    ensures Ended(toks, p, q, less)
  {
    hide Guarded;
    if Guarded(toks, p, q, stops) {
      GuardedLess(toks, p, q, stops, less);
    } else {
      GuardedLess(toks, p, q - 1, stops, less);
    }
  }

  /** An optional separator behind what is guarded. */
  lemma EndedBy(toks: seq<Token>, p: nat, q: nat, stops: set<Kind>)
    requires p <= q <= |toks| && Guarded(toks, p, q, stops)
    ensures Ended(toks, p, AfterSeparator(toks, q), stops)
  {
    hide OpenerBetween;
    if Separator(KindAt(toks, q)) {
      var i := NextReal(toks, q);
      forall k | q <= k < i ensures !RealAt(toks, k) {
        NoneOnTheWay(toks, q, k);
      }
    }
  }

  lemma {:induction false} NoneOnTheWay(toks: seq<Token>, p: nat, k: nat)
    requires p <= |toks| && p <= k < NextReal(toks, p)
    ensures !RealAt(toks, k)
    decreases |toks| - p
  {
    if p < k {
      NoneOnTheWay(toks, p + 1, k);
    }
  }

  lemma EndedThen(toks: seq<Token>, p: nat, q: nat, r: nat, stops: set<Kind>)
    requires Guarded(toks, p, q, stops) && Ended(toks, q, r, stops) && p <= q <= r
    ensures Ended(toks, p, r, stops)
  {
    hide Guarded;
    if Guarded(toks, q, r, stops) {
      GuardedThen(toks, p, q, r, stops);
    } else {
      GuardedThen(toks, p, q, r - 1, stops);
    }
  }

  /** Recovering behind a malformed entry. */
  lemma RecoverBehind(toks: seq<Token>, p: nat, q: nat, term: Kind)
    requires p <= q <= |toks| && Guarded(toks, p, q, {Comma, Semicolon, term})
    ensures Turn(toks, p, RecoverTo(toks, q, term), term)
  {
    hide RecoverTo, Guarded, Ended;
    RecoverTurn(toks, q, term);
    EndedThen(toks, p, q, RecoverTo(toks, q, term), {Comma, Semicolon, term});
  }

  lemma TurnThen(toks: seq<Token>, p: nat, q: nat, r: nat, term: Kind)
    requires p <= q <= r && Guarded(toks, p, q, {Comma, Semicolon, term}) && Turn(toks, q, r, term)
    ensures Turn(toks, p, r, term)
  {
    hide Guarded, Ended;
    EndedThen(toks, p, q, r, {Comma, Semicolon, term});
  }

  lemma SkippedFurther(toks: seq<Token>, p: nat, q: nat, stops: set<Kind>)
    requires p <= q <= |toks| && Guarded(toks, p, q, stops)
    ensures Guarded(toks, p, SkipTo(toks, q, stops), stops)
  {
    hide Guarded, SkipTo;
    GuardedSkip(toks, q, stops, stops);
    GuardedThen(toks, p, q, SkipTo(toks, q, stops), stops);
  }

  lemma SeparatorTurn(toks: seq<Token>, p: nat, q: nat, term: Kind)
    requires p <= q <= |toks| && Guarded(toks, p, q, {Comma, Semicolon, term})
    ensures Turn(toks, p, AfterSeparator(toks, q), term)
  {
    hide Guarded, AfterSeparator, Ended;
    EndedBy(toks, p, q, {Comma, Semicolon, term});
  }

  // ----- kinds that are no stops -----

  lemma NoStopValue(k: Kind)
    ensures Choose(ValueNode, k).Some? ==> k !in STOPS
  {
    hide IsKeyword;
  }

  lemma NoStopContainer(k: Kind)
    ensures Container(k) ==> k !in STOPS
  {
  }

  lemma NoStopBase(k: Kind)
    ensures IsBaseType(k) ==> k !in STOPS
  {
  }

  lemma NoStopName(k: Kind)
    ensures k == Identifier || IsKeyword(k) ==> k !in STOPS
  {
  }

  /** Recovering skips to a separator or to the terminator. */
  lemma RecoverTurn(toks: seq<Token>, p: nat, term: Kind)
    requires p <= |toks|
    ensures Turn(toks, p, RecoverTo(toks, p, term), term)
  {
    hide SkipTo, Guarded, KindAt, Past;
    var kinds := {Comma, Semicolon, term};
    var q := SkipTo(toks, p, kinds);
    GuardedSkip(toks, p, kinds, kinds);
    EndedBy(toks, p, q, kinds);
    SkipEnds(toks, p, kinds);
  }

  lemma SkipEnds(toks: seq<Token>, p: nat, kinds: set<Kind>)
    requires p <= |toks|
    ensures KindAt(toks, SkipTo(toks, p, kinds)) in kinds || KindAt(toks, SkipTo(toks, p, kinds)) == EOF
  {
    hide KindAt;
  }

  /** A turn does not cross a fence but to come out right behind it. */
  lemma TurnInside(toks: seq<Token>, p: nat, q: nat, s: nat, term: Kind)
    requires Turn(toks, p, q, term) && p <= q && Fence(toks, p, s, term) && !Separator(term)
    ensures s < |toks| && ((q <= s && Fence(toks, q, s, term)) || q == Behind(toks, s, term))
  {
    if q > s {
      assert RealAt(toks, s) && toks[s].kind in {Comma, Semicolon, term};
      NoOpener(toks, p, s, {Comma, Semicolon, term});
    }
  }

  lemma NoOpener(toks: seq<Token>, p: nat, s: nat, stops: set<Kind>)
    requires Plain(toks, p, s, stops)
    ensures !OpenerBetween(toks, p, s)
  {
    forall j | p <= j < s && j < |toks| ensures !Opens(toks[j].kind) {
      assert IsComment(toks[j].kind) || RealAt(toks, j);
    }
  }

  /** After one turn the list still comes to where it came from before it. */
  lemma TurnComes(toks: seq<Token>, p: nat, next: nat, q: nat, category: Category, term: Kind)
    requires ComesTo(toks, p, q, category, term) && p != q && !Separator(term)
    requires p <= next <= |toks| && Turn(toks, p, next, term)
    requires NodeAt(toks, p, category).Some? && KindAt(toks, p) != term ==> next == EntryEnd(toks, p, category)
    ensures ComesTo(toks, next, q, category, term)
  {
    hide Turn, Fence, NodeAt, ComesTo, Behind, KindAt;
    var s := ComesApart(toks, p, q, category, term);
    if s.Some? {
      TurnInside(toks, p, next, s.value, term);
      if next != Behind(toks, s.value, term) {
        ComesOver(toks, next, s.value, q, category, term);
      }
    }
  }

  /** How a list comes to a later position: over a node, or over the tokens up to a fence. */
  lemma ComesApart(toks: seq<Token>, p: nat, q: nat, category: Category, term: Kind) returns (s: Option<nat>)
    requires ComesTo(toks, p, q, category, term) && p != q
    ensures p <= |toks|
    ensures s.None? ==> KindAt(toks, p) != term && NodeAt(toks, p, category).Some?
                        && ComesTo(toks, EntryEnd(toks, p, category), q, category, term)
    ensures s.Some? ==> Fence(toks, p, s.value, term) && s.value < |toks| && p < Behind(toks, s.value, term)
                        && ComesTo(toks, Behind(toks, s.value, term), q, category, term)
  {
    hide Fence, NodeAt, ComesTo, KindAt, OverFence, EntryEnd;
    ComesBy(toks, p, q, category, term);
    if OverEntry(toks, p, q, category, term) {
      s := None;
    } else {
      s := Over(toks, p, q, category, term);
    }
  }

  lemma ComesBy(toks: seq<Token>, p: nat, q: nat, category: Category, term: Kind)
    requires ComesTo(toks, p, q, category, term) && p != q
    ensures p <= |toks| && (OverEntry(toks, p, q, category, term) || OverFence(toks, p, q, category, term))
  {
    hide OverEntry, OverFence;
  }

  lemma Over(toks: seq<Token>, p: nat, q: nat, category: Category, term: Kind) returns (s: Option<nat>)
    requires p <= |toks| && OverFence(toks, p, q, category, term)
    ensures s.Some? && Fence(toks, p, s.value, term) && s.value < |toks| && p < Behind(toks, s.value, term)
    ensures ComesTo(toks, Behind(toks, s.value, term), q, category, term)
  {
    hide ComesTo, Plain, KindAt, NodeAt;
    var i :| Fence(toks, p, i, term) && p < Behind(toks, i, term)
             && ComesTo(toks, Behind(toks, i, term), q, category, term);
    s := Some(i);
  }

  lemma ComesOver(toks: seq<Token>, p: nat, s: nat, q: nat, category: Category, term: Kind)
    requires p <= |toks| && Fence(toks, p, s, term) && s < |toks|
    requires ComesTo(toks, Behind(toks, s, term), q, category, term)
    ensures ComesTo(toks, p, q, category, term)
  {
    hide NodeAt;
    FenceAhead(toks, p, s, term);
  }

  lemma FenceAhead(toks: seq<Token>, p: nat, s: nat, term: Kind)
    requires Fence(toks, p, s, term)
    ensures s < |toks| && (p < Behind(toks, s, term) || (p == s == Behind(toks, s, term)))
  {
  }

  // ----- lists with malformed entries -----

  /** The node at e, if there is one, is among the parts. */
  ghost predicate Kept(toks: seq<Token>, e: nat, category: Category, parts: seq<Child>) {
    e <= |toks| && NodeAt(toks, e, category).Some? ==>
      Child(EntryRole, NodeAt(toks, e, category).value.node) in parts
  }

  /** What the list came to from p0 it has kept or still comes to. */
  ghost predicate Pending(toks: seq<Token>, p0: nat, p: nat, parts: seq<Child>, category: Category, term: Kind) {
    forall e :: ComesTo(toks, p0, e, category, term) ==>
      ComesTo(toks, p, e, category, term) || (KindAt(toks, e) != term && Kept(toks, e, category, parts))
  }

  /** A list from p0 to p keeps every well-formed entry that it comes to, also behind malformed ones, and ends at the
      terminator if it comes to it. */
  ghost predicate Recovers(toks: seq<Token>, p0: nat, p: nat, parts: seq<Child>, category: Category, term: Kind) {
    forall e :: ComesTo(toks, p0, e, category, term) ==>
      if KindAt(toks, e) == term then Index(toks, p) == Index(toks, e) else Kept(toks, e, category, parts)
  }

  lemma PendingStart(toks: seq<Token>, p: nat, parts: seq<Child>, category: Category, term: Kind)
    ensures Pending(toks, p, p, parts, category, term)
  {
    hide ComesTo;
  }

  /** One turn: a well-formed entry is added, and otherwise nothing is lost. */
  lemma PendingTurn(toks: seq<Token>, p0: nat, p: nat, next: nat, parts: seq<Child>, more: seq<Child>,
                    category: Category, term: Kind)
    requires Pending(toks, p0, p, parts, category, term) && KindAt(toks, p) != term && !Separator(term)
    requires p <= next <= |toks| && Turn(toks, p, next, term) && parts <= more
    requires NodeAt(toks, p, category).Some? ==>
               next == EntryEnd(toks, p, category)
               && Child(EntryRole, NodeAt(toks, p, category).value.node) in more
    ensures Pending(toks, p0, next, more, category, term)
  {
    hide ComesTo, Turn, KindAt, EntryEnd, Kept;
    forall e | ComesTo(toks, p0, e, category, term)
      ensures ComesTo(toks, next, e, category, term) || (KindAt(toks, e) != term && Kept(toks, e, category, more))
    {
      if ComesTo(toks, p, e, category, term) && e != p {
        TurnComes(toks, p, next, e, category, term);
      } else {
        KeptMore(toks, e, category, parts, more);
      }
    }
  }

  lemma KeptMore(toks: seq<Token>, e: nat, category: Category, parts: seq<Child>, more: seq<Child>)
    requires parts <= more
    ensures Kept(toks, e, category, parts) ==> Kept(toks, e, category, more)
    ensures e <= |toks| && NodeAt(toks, e, category).Some? ==>
              Child(EntryRole, NodeAt(toks, e, category).value.node) in more ==> Kept(toks, e, category, more)
    ensures e <= |toks| && NodeAt(toks, e, category).None? ==> Kept(toks, e, category, more)
  {
    hide NodeAt;
  }

  /** The list ends at its terminator, or at EOF. */
  lemma PendingEnd(toks: seq<Token>, p0: nat, p: nat, parts: seq<Child>, category: Category, term: Kind)
    requires Pending(toks, p0, p, parts, category, term) && p <= |toks| && term != EOF && !Separator(term)
    requires KindAt(toks, p) == term || (KindAt(toks, p) == EOF && NodeAt(toks, p, category).None?)
    ensures Recovers(toks, p0, p, parts, category, term)
  {
    hide ComesTo, NodeAt, KindAt, Index;
    forall e | ComesTo(toks, p0, e, category, term)
      ensures if KindAt(toks, e) == term then Index(toks, p) == Index(toks, e) else Kept(toks, e, category, parts)
    {
      if ComesTo(toks, p, e, category, term) {
        EndsHere(toks, p, e, category, term);
      }
    }
  }

  lemma EndsHere(toks: seq<Token>, p: nat, e: nat, category: Category, term: Kind)
    requires ComesTo(toks, p, e, category, term) && p <= |toks| && term != EOF && !Separator(term)
    requires KindAt(toks, p) == term || (KindAt(toks, p) == EOF && NodeAt(toks, p, category).None?)
    ensures KindAt(toks, e) == KindAt(toks, p) && Index(toks, e) == Index(toks, p)
            && (e != p ==> KindAt(toks, p) == term)
    decreases Room(toks, p)
  {
    hide ComesTo, NodeAt, Fence, KindAt, Index, Behind;
    if e != p {
      var s := ComesApart(toks, p, e, category, term);
      if s.Some? {
        FenceHere(toks, p, s.value, term);
        EndsHere(toks, s.value, e, category, term);
      }
    }
  }

  /** At the terminator, or at EOF, a fence is right there. */
  lemma FenceHere(toks: seq<Token>, p: nat, s: nat, term: Kind)
    requires Fence(toks, p, s, term) && p <= |toks| && term != EOF && !Separator(term)
    requires KindAt(toks, p) == term || KindAt(toks, p) == EOF
    ensures KindAt(toks, p) == term && p <= s < |toks| && s == Index(toks, p) == Index(toks, s)
    ensures KindAt(toks, s) == term && Behind(toks, s, term) == s
  {
    OnlyNext(toks, p, s);
    var i := NextReal(toks, p);
    assert RealAt(toks, i);
  }

  /** The same, with the terminator consumed if the list comes to it. */
  ghost predicate RecoversThrough(toks: seq<Token>, p0: nat, p: nat, parts: seq<Child>, category: Category,
                                  term: Kind) {
    forall e :: ComesTo(toks, p0, e, category, term) ==>
      if KindAt(toks, e) == term then p == Past(toks, e) else Kept(toks, e, category, parts)
  }

  lemma Through(toks: seq<Token>, p0: nat, q: nat, p: nat, parts: seq<Child>, category: Category, term: Kind)
    requires Recovers(toks, p0, q, parts, category, term) && q <= |toks| && term != EOF
    requires KindAt(toks, q) == term ==> p == Past(toks, q)
    ensures RecoversThrough(toks, p0, p, parts, category, term)
  {
    hide ComesTo, Kept;
    forall e | ComesTo(toks, p0, e, category, term)
      ensures if KindAt(toks, e) == term then p == Past(toks, e) else Kept(toks, e, category, parts)
    {
      if KindAt(toks, e) == term {
        SameIndex(toks, q, e);
      }
    }
  }

  lemma SameIndex(toks: seq<Token>, p: nat, q: nat)
    requires p <= |toks| && Index(toks, p) == Index(toks, q) && KindAt(toks, q) != EOF
    ensures KindAt(toks, p) == KindAt(toks, q) && Past(toks, p) == Past(toks, q)
  {
  }

  // ----- a malformed entry -----

  /** The well-formed entries from p on, one after another, and where they stop. */
  function EntriesRead(toks: seq<Token>, p: nat, category: Category, term: Kind): (r: Parts)
    requires p <= |toks|
    ensures p <= r.next <= |toks|
    decreases |toks| - p
  {
    if KindAt(toks, p) == term || NodeAt(toks, p, category).None? then Parts([], p)
    else
      var n := NodeAt(toks, p, category).value;
      var r := EntriesRead(toks, n.next, category, term);
      Parts([Child(EntryRole, n.node)] + r.parts, r.next)
  }

  lemma EntriesStep(toks: seq<Token>, p: nat, category: Category, term: Kind, parts: seq<Child>)
    requires p <= |toks|
    ensures var n, r := NodeAt(toks, p, category), EntriesRead(toks, p, category, term);
            if KindAt(toks, p) == term || n.None? then r == Parts([], p) && parts + r.parts == parts
            else
              var more := EntriesRead(toks, n.value.next, category, term);
              r.next == more.next
              && parts + r.parts == parts + [Child(EntryRole, n.value.node)] + more.parts
  {
    hide NodeAt, KindAt;
    var n := NodeAt(toks, p, category);
    if KindAt(toks, p) != term && n.Some? {
      var more := EntriesRead(toks, n.value.next, category, term).parts;
      assert parts + ([Child(EntryRole, n.value.node)] + more) == parts + [Child(EntryRole, n.value.node)] + more;
    }
  }

  lemma {:induction false} ComesThen(toks: seq<Token>, p: nat, q: nat, r: nat, category: Category, term: Kind)
    requires ComesTo(toks, p, q, category, term) && ComesTo(toks, q, r, category, term)
    ensures ComesTo(toks, p, r, category, term)
    decreases Room(toks, p)
  {
    hide Fence, NodeAt, KindAt, EntryEnd, ComesTo;
    if p != q {
      var s := ComesApart(toks, p, q, category, term);
      if s.Some? {
        ComesThen(toks, Behind(toks, s.value, term), q, r, category, term);
        ComesOver(toks, p, s.value, r, category, term);
      } else {
        EntryEndLater(toks, p, category);
        ComesThen(toks, EntryEnd(toks, p, category), q, r, category, term);
        ComesOverEntry(toks, p, r, category, term);
      }
    }
  }

  lemma EntryEndLater(toks: seq<Token>, p: nat, category: Category)
    requires p <= |toks| && NodeAt(toks, p, category).Some?
    ensures p < EntryEnd(toks, p, category) <= |toks|
  {
    hide NodeAt, KindAt;
  }

  lemma ComesOverEntry(toks: seq<Token>, p: nat, q: nat, category: Category, term: Kind)
    requires p <= |toks| && KindAt(toks, p) != term && NodeAt(toks, p, category).Some?
    requires ComesTo(toks, EntryEnd(toks, p, category), q, category, term)
    ensures ComesTo(toks, p, q, category, term)
  {
    hide NodeAt, KindAt, EntryEnd;
    assert OverEntry(toks, p, q, category, term);
  }

  lemma ComesHere(toks: seq<Token>, p: nat, category: Category, term: Kind)
    requires p <= |toks|
    ensures ComesTo(toks, p, p, category, term)
  {
  }

  /** The well-formed entries from p on are kept where the list comes to p. */
  lemma {:induction false} EntriesKept(toks: seq<Token>, p0: nat, p: nat, q: nat, parts: seq<Child>,
                                       category: Category, term: Kind)
    requires Recovers(toks, p0, q, parts, category, term) && ComesTo(toks, p0, p, category, term) && p <= |toks|
    requires category != ValueNode
    ensures var r := EntriesRead(toks, p, category, term);
            && (forall c :: c in r.parts ==> c in parts) && ComesTo(toks, p0, r.next, category, term)
            && (KindAt(toks, r.next) == term ==> Index(toks, q) == Index(toks, r.next))
    decreases |toks| - p
  {
    hide NodeAt, KindAt, ComesTo, Index;
    EntriesStep(toks, p, category, term, []);
    EntryEndIs(toks, p, category);
    if KindAt(toks, p) != term && NodeAt(toks, p, category).Some? {
      var n := NodeAt(toks, p, category).value;
      ComesHere(toks, n.next, category, term);
      ComesOverEntry(toks, p, n.next, category, term);
      ComesThen(toks, p0, p, n.next, category, term);
      EntriesKept(toks, p0, n.next, q, parts, category, term);
    }
  }

  lemma FenceSeparator(toks: seq<Token>, p: nat, s: nat, term: Kind)
    requires Fence(toks, p, s, term) && Separator(toks[s].kind) && !Separator(term)
    ensures s < |toks| && Behind(toks, s, term) == s + 1 > p
  {
  }

  /** A list with a malformed entry that opens no bracket: the entries before it and the entries behind the next
      separator are kept, and the list ends where these end. */
  lemma MalformedEntry(toks: seq<Token>, p0: nat, s: nat, q: nat, parts: seq<Child>, category: Category, term: Kind)
    requires Recovers(toks, p0, q, parts, category, term) && category != ValueNode && p0 <= |toks|
    requires Fence(toks, EntriesRead(toks, p0, category, term).next, s, term) && Separator(toks[s].kind)
    requires !Separator(term)
    ensures var r := EntriesRead(toks, s + 1, category, term);
            && (forall c :: c in EntriesRead(toks, p0, category, term).parts + r.parts ==> c in parts)
            && (KindAt(toks, r.next) == term ==> Index(toks, q) == Index(toks, r.next))
  {
    hide NodeAt, KindAt, ComesTo, EntriesRead, Index, Recovers, Fence;
    FenceSeparator(toks, EntriesRead(toks, p0, category, term).next, s, term);
    var a := EntriesRead(toks, p0, category, term).next;
    ComesHere(toks, p0, category, term);
    EntriesKept(toks, p0, p0, q, parts, category, term);
    ComesHere(toks, s + 1, category, term);
    ComesOver(toks, a, s, s + 1, category, term);
    ComesThen(toks, p0, a, s + 1, category, term);
    EntriesKept(toks, p0, s + 1, q, parts, category, term);
  }

  // ----- struct bodies -----

  predicate IsStruct(k: Kind) {
    k == Struct || k == Union || k == Exception
  }

  /** A name and an opening brace follow the keyword at p. */
  predicate Headed(toks: seq<Token>, p: nat) {
    KindAt(toks, Past(toks, p)) == Identifier && KindAt(toks, Past(toks, Past(toks, p))) == LBrace
  }

  lemma HeadedIs(toks: seq<Token>, p: nat)
    ensures Headed(toks, p) <==>
              KindAt(toks, Past(toks, p)) == Identifier && KindAt(toks, Past(toks, Past(toks, p))) == LBrace
    ensures BodyAt(toks, p) == Past(toks, Past(toks, Past(toks, p)))
  {
  }

  function BodyAt(toks: seq<Token>, p: nat): nat {
    Past(toks, Past(toks, Past(toks, p)))
  }

  /** The fields from b on: every well-formed one that the list comes to is kept, and behind the closing brace, if it
      comes to one without annotations behind it, the struct ends. */
  ghost predicate BodyRecovers(toks: seq<Token>, b: nat, p: nat, parts: seq<Child>) {
    forall e :: ComesTo(toks, b, e, FieldNode, RBrace) ==>
      if KindAt(toks, e) == RBrace then KindAt(toks, Past(toks, e)) != LParen ==> p == Past(toks, e)
      else Kept(toks, e, FieldNode, parts)
  }

  lemma BodyThrough(toks: seq<Token>, b: nat, q: nat, p: nat, parts: seq<Child>, more: seq<Child>)
    requires RecoversThrough(toks, b, q, parts, FieldNode, RBrace) && parts <= more
    requires KindAt(toks, q) != LParen ==> p == q
    ensures BodyRecovers(toks, b, p, more)
  {
    hide ComesTo, Kept, KindAt, Past;
    forall e | ComesTo(toks, b, e, FieldNode, RBrace)
      ensures if KindAt(toks, e) == RBrace then KindAt(toks, Past(toks, e)) != LParen ==> p == Past(toks, e)
              else Kept(toks, e, FieldNode, more)
    {
      KeptMore(toks, e, FieldNode, parts, more);
    }
  }

  /** What a list keeps it keeps among more parts. */
  lemma RecoversMore(toks: seq<Token>, p0: nat, p: nat, parts: seq<Child>, more: seq<Child>, category: Category,
                     term: Kind)
    requires RecoversThrough(toks, p0, p, parts, category, term) && parts <= more
    ensures RecoversThrough(toks, p0, p, more, category, term)
  {
    hide ComesTo, Kept, KindAt, Past;
    forall e | ComesTo(toks, p0, e, category, term)
      ensures if KindAt(toks, e) == term then p == Past(toks, e) else Kept(toks, e, category, more)
    {
      KeptMore(toks, e, category, parts, more);
    }
  }

  // ----- enum values -----

  /** An enum keeps the values up to the first malformed one; if that is no name, the rest up to the closing brace is
      dropped. */
  ghost predicate DropsRest(toks: seq<Token>, p0: nat, p: nat, parts: seq<Child>, more: seq<Child>) {
    p0 <= |toks| &&
    var r := EntriesRead(toks, p0, EnumValueNode, RBrace);
    && parts + r.parts <= more
    && (KindAt(toks, r.next) != Identifier ==> more == parts + r.parts && p == SkipTo(toks, r.next, {RBrace}))
  }

  /** The values from b on, up to the first malformed one, are among the parts, one after another. */
  ghost predicate ValuesKept(toks: seq<Token>, b: nat, parts: seq<Child>) {
    exists i :: 0 <= i <= |parts| && b <= |toks| && EntriesRead(toks, b, EnumValueNode, RBrace).parts <= parts[i..]
  }

  lemma ValuesKeptMore(toks: seq<Token>, b: nat, p: nat, parts: seq<Child>, mid: seq<Child>, more: seq<Child>)
    requires DropsRest(toks, b, p, parts, mid) && mid <= more
    ensures ValuesKept(toks, b, more)
  {
    hide EntriesRead;
    var r := EntriesRead(toks, b, EnumValueNode, RBrace).parts;
    assert parts + r <= more;
    assert (parts + r)[|parts|..] == r;
    assert r <= more[|parts|..];
  }

  /** The values read so far and those still to be read are the well-formed ones. */
  ghost predicate ReadsOn(toks: seq<Token>, p: nat, whole: Parts, parts: seq<Child>, more: seq<Child>) {
    p <= |toks| &&
    var r := EntriesRead(toks, p, EnumValueNode, RBrace);
    parts + whole.parts == more + r.parts && whole.next == r.next
  }

  /** The well-formed values have been read, and something malformed was in the way. */
  ghost predicate Stopped(toks: seq<Token>, p: nat, whole: Parts, parts: seq<Child>, more: seq<Child>) {
    && whole.next <= |toks| && parts + whole.parts <= more
    && (KindAt(toks, whole.next) != Identifier ==>
          more == parts + whole.parts && p == SkipTo(toks, whole.next, {RBrace}))
  }

  lemma ReadsOnStart(toks: seq<Token>, p: nat, parts: seq<Child>)
    requires p <= |toks|
    ensures ReadsOn(toks, p, EntriesRead(toks, p, EnumValueNode, RBrace), parts, parts)
  {
    hide EntriesRead;
  }

  lemma StopsNoName(toks: seq<Token>, p: nat, q: nat, whole: Parts, parts: seq<Child>, more: seq<Child>, fine: bool)
    requires p <= |toks| && KindAt(toks, p) != Identifier && q == SkipTo(toks, p, {RBrace})
    requires KindAt(toks, p) != RBrace && KindAt(toks, p) != EOF && NodeAt(toks, p, EnumValueNode).None?
    requires if fine then ReadsOn(toks, p, whole, parts, more) else Stopped(toks, p, whole, parts, more)
    ensures Stopped(toks, q, whole, parts, more)
  {
    hide KindAt, SkipTo, NodeAt;
    EntriesStep(toks, p, EnumValueNode, RBrace, more);
    if !fine && KindAt(toks, whole.next) != Identifier {
      SkipEnds(toks, whole.next, {RBrace});
    }
  }

  lemma ValueAdded(toks: seq<Token>, p: nat, q: nat, whole: Parts, parts: seq<Child>, more: seq<Child>, n: Node,
                   fine: bool)
    requires p <= |toks| && q <= |toks| && KindAt(toks, p) == Identifier
    requires if fine then ReadsOn(toks, p, whole, parts, more) else Stopped(toks, p, whole, parts, more)
    requires var v := NodeAt(toks, p, EnumValueNode); v.Some? ==> v.value.node == n && v.value.next == q
    ensures if fine && NodeAt(toks, p, EnumValueNode).Some?
            then ReadsOn(toks, q, whole, parts, more + [Child(EntryRole, n)])
            else Stopped(toks, q, whole, parts, more + [Child(EntryRole, n)])
  {
    hide KindAt, SkipTo, NodeAt;
    EntriesStep(toks, p, EnumValueNode, RBrace, more);
    if !fine && KindAt(toks, whole.next) != Identifier {
      SkipEnds(toks, whole.next, {RBrace});
    }
  }

  lemma EntriesEnd(toks: seq<Token>, p0: nat, p: nat, whole: Parts, parts: seq<Child>, more: seq<Child>, fine: bool)
    requires p0 <= |toks| && p <= |toks| && whole == EntriesRead(toks, p0, EnumValueNode, RBrace)
    requires KindAt(toks, p) == RBrace || (KindAt(toks, p) == EOF && NodeAt(toks, p, EnumValueNode).None?)
    requires if fine then ReadsOn(toks, p, whole, parts, more) else Stopped(toks, p, whole, parts, more)
    ensures DropsRest(toks, p0, p, parts, more)
  {
    hide KindAt, SkipTo, NodeAt;
    if fine {
      EntriesStep(toks, p, EnumValueNode, RBrace, more);
      SkipStep(toks, p, {RBrace});
    }
  }

  // ----- functions -----

  /** No function starts with the kind. */
  predicate StartsNone(k: Kind) {
    k != Oneway && k != Async && k != Void && Choose(TypeNode, k).None?
  }

  lemma StartsNoneIs(k: Kind)
    ensures StartsNone(k) <==> k != Oneway && k != Async && k != Void && Choose(TypeNode, k).None?
  {
  }

  lemma NoFunctionStarts(k: Kind)
    ensures Choose(FunctionNode, k).None? <==> k != At && StartsNone(k)
  {
    hide IsKeyword, TypeForm;
  }

  lemma BehindFunctionIs(toks: seq<Token>, p: nat)
    requires p <= |toks|
    ensures BehindFunction(toks, p) == BehindParameters(toks, SkipTo(toks, p, {LParen, EOF}))
  {
  }

  /** Behind the next closing parenthesis, or at the end of the service. */
  function BehindParameters(toks: seq<Token>, p: nat): (q: nat)
    requires p <= |toks|
    ensures p <= q <= |toks|
  {
    var q := SkipTo(toks, p, {RParen, RBrace});
    if KindAt(toks, q) == RParen then Past(toks, q) else q
  }

  /** Where a service goes on when no function starts at p: behind the next parameter list, or at its end. */
  function BehindFunction(toks: seq<Token>, p: nat): (q: nat)
    requires p <= |toks|
    ensures p <= q <= |toks|
  {
    BehindParameters(toks, SkipTo(toks, p, {LParen, EOF}))
  }

  /** The functions that stand at p come to q: over well-formed functions, and over tokens that start none. */
  ghost predicate FunctionsTo(toks: seq<Token>, p: nat, q: nat)
    decreases Room(toks, p), 1
  {
    p <= |toks| && (p == q || OverFunction(toks, p, q) || OverNone(toks, p, q))
  }

  ghost predicate OverFunction(toks: seq<Token>, p: nat, q: nat)
    requires p <= |toks|
    decreases Room(toks, p), 0
  {
    && KindAt(toks, p) != RBrace && NodeAt(toks, p, FunctionNode).Some?
    && FunctionsTo(toks, NodeAt(toks, p, FunctionNode).value.next, q)
  }

  ghost predicate OverNone(toks: seq<Token>, p: nat, q: nat)
    requires p <= |toks|
    decreases Room(toks, p), 0
  {
    && KindAt(toks, p) != RBrace && KindAt(toks, p) != EOF && Choose(FunctionNode, KindAt(toks, p)).None?
    && p < BehindFunction(toks, p) && FunctionsTo(toks, BehindFunction(toks, p), q)
  }

  /** What the service came to from p0 it has kept or still comes to. */
  ghost predicate FunctionsPending(toks: seq<Token>, p0: nat, p: nat, parts: seq<Child>) {
    forall e :: FunctionsTo(toks, p0, e) ==>
      FunctionsTo(toks, p, e) || (KindAt(toks, e) != RBrace && Kept(toks, e, FunctionNode, parts))
  }

  /** A service keeps every well-formed function that it comes to, and ends at its brace if it comes to it. */
  ghost predicate FunctionsRecover(toks: seq<Token>, p0: nat, p: nat, parts: seq<Child>) {
    forall e :: FunctionsTo(toks, p0, e) ==>
      if KindAt(toks, e) == RBrace then p == e else Kept(toks, e, FunctionNode, parts)
  }

  /** The functions from b on that the service comes to are among the parts. */
  ghost predicate FunctionsKept(toks: seq<Token>, b: nat, parts: seq<Child>) {
    forall e :: FunctionsTo(toks, b, e) && KindAt(toks, e) != RBrace ==> Kept(toks, e, FunctionNode, parts)
  }

  lemma FunctionsKeptMore(toks: seq<Token>, b: nat, p: nat, parts: seq<Child>, more: seq<Child>)
    requires FunctionsRecover(toks, b, p, parts) && parts <= more
    ensures FunctionsKept(toks, b, more)
  {
    hide FunctionsTo, Kept, KindAt;
    forall e | FunctionsTo(toks, b, e) && KindAt(toks, e) != RBrace ensures Kept(toks, e, FunctionNode, more) {
      KeptMore(toks, e, FunctionNode, parts, more);
    }
  }

  lemma FunctionsStart(toks: seq<Token>, p: nat, parts: seq<Child>)
    ensures FunctionsPending(toks, p, p, parts)
  {
    hide FunctionsTo;
  }

  lemma FunctionsApart(toks: seq<Token>, p: nat, next: nat, q: nat)
    requires FunctionsTo(toks, p, q) && p != q && p <= |toks|
    requires NodeAt(toks, p, FunctionNode).Some? ==> next == NodeAt(toks, p, FunctionNode).value.next
    requires Choose(FunctionNode, KindAt(toks, p)).None? ==> next == BehindFunction(toks, p)
    ensures FunctionsTo(toks, next, q) && KindAt(toks, p) != RBrace && KindAt(toks, p) != EOF
  {
    hide KindAt, Production, Read, Choose;
    NoFunction(toks, p);
  }

  lemma NoFunction(toks: seq<Token>, p: nat)
    requires p <= |toks|
    ensures KindAt(toks, p) == EOF ==> NodeAt(toks, p, FunctionNode).None?
  {
    hide KindAt, Production, Read, IsKeyword;
  }

  lemma FunctionsTurn(toks: seq<Token>, p0: nat, p: nat, next: nat, parts: seq<Child>, more: seq<Child>)
    requires FunctionsPending(toks, p0, p, parts) && KindAt(toks, p) != RBrace && p <= next <= |toks| && parts <= more
    requires NodeAt(toks, p, FunctionNode).Some? ==>
               next == NodeAt(toks, p, FunctionNode).value.next
               && Child(EntryRole, NodeAt(toks, p, FunctionNode).value.node) in more
    requires Choose(FunctionNode, KindAt(toks, p)).None? ==> next == BehindFunction(toks, p)
    ensures FunctionsPending(toks, p0, next, more)
  {
    hide FunctionsTo, KindAt, Kept, NodeAt, Choose;
    forall e | FunctionsTo(toks, p0, e)
      ensures FunctionsTo(toks, next, e) || (KindAt(toks, e) != RBrace && Kept(toks, e, FunctionNode, more))
    {
      if FunctionsTo(toks, p, e) && e != p {
        FunctionsApart(toks, p, next, e);
      } else {
        KeptMore(toks, e, FunctionNode, parts, more);
      }
    }
  }

  lemma FunctionsEnd(toks: seq<Token>, p0: nat, p: nat, parts: seq<Child>)
    requires FunctionsPending(toks, p0, p, parts) && p <= |toks|
    requires KindAt(toks, p) == RBrace || KindAt(toks, p) == EOF
    ensures FunctionsRecover(toks, p0, p, parts)
  {
    hide KindAt, Kept, FunctionsTo;
    forall e | FunctionsTo(toks, p0, e)
      ensures if KindAt(toks, e) == RBrace then p == e else Kept(toks, e, FunctionNode, parts)
    {
      if FunctionsTo(toks, p, e) {
        FunctionsHere(toks, p, e);
        KeptMore(toks, e, FunctionNode, [], parts);
      }
    }
  }

  lemma FunctionsHere(toks: seq<Token>, p: nat, e: nat)
    requires FunctionsTo(toks, p, e) && p <= |toks| && (KindAt(toks, p) == RBrace || KindAt(toks, p) == EOF)
    ensures e == p && Kept(toks, p, FunctionNode, [])
  {
    hide KindAt, Production, Read;
    NoFunction(toks, p);
    NoBrace();
  }

  lemma NoBrace()
    ensures Choose(FunctionNode, RBrace).None?
  {
    hide IsKeyword;
  }
}
