/** The printed text of a syntax tree, in any layout and with comments, is lexed as the tokens of the tree with those
    of the layout between. kclvm/ast_pretty/src/node.rs, kclvm/lexer/src. */
module PrintTree {
  import opened LexerSpec
  import opened Numbers
  import opened Relexing
  import opened Wrappers
  import opened PrintLexing
  import opened PrintAtoms
  import opened PrintItems
  import opened PrintCells
  import opened PrintSteps
  import opened PrintOk
  import P = PrettyAst
  import PS = PrintSpec
  import TypePrinter

  // ----- expressions -----

  lemma {:induction false} ExprTracks(cc: CharClass, sh: PS.S, t: Items, x: P.Node<P.Expr>)
    requires cc.Standard() && Tracks(cc, sh, t) && Opens(t) && OkExpr(cc, x)
    ensures Tracks(cc, PS.ExprShape(sh, x), ExprItems(t, x)) && Shuts(ExprItems(t, x))
    decreases x, 0
  {
    hide Tracks, Opens, Shuts, OkKind, PS.ExprKindShape, KindItems;
    LayStep(cc, sh, t);
    LaySame(t);
    KindTracks(cc, PS.V(sh, PS.AtNode(x.line)), Lay(t), x.node);
  }

  lemma {:induction false} OptionTracks(cc: CharClass, sh: PS.S, t: Items, x: Option<P.Node<P.Expr>>)
    requires cc.Standard() && Tracks(cc, sh, t) && Opens(t) && OkOption(cc, x)
    ensures Tracks(cc, PS.BoundShape(sh, x), BoundItems(t, x)) && (x.Some? ==> Shuts(BoundItems(t, x)))
    decreases x, 0
  {
    hide Tracks, Opens, Shuts, OkExpr, PS.ExprShape, ExprItems;
    if x.Some? { ExprTracks(cc, sh, t, x.value); }
  }

  lemma {:induction false} ItemTracks(cc: CharClass, sh: PS.S, t: Items, x: P.Node<P.Expr>)
    requires cc.Standard() && Tracks(cc, sh, t) && Free(t) && OkItem(cc, x)
    ensures Tracks(cc, PS.ExprShape(sh, x), ExprItems(t, x)) && Shuts(ExprItems(t, x))
    decreases x, 1
  {
    hide Tracks, Opens, Free, Shuts, OkExpr;
    FreeOpens(t);
    if x.node.Starred? {
      LayStep(cc, sh, t);
      LaySame(t);
      var visited := PS.V(sh, PS.AtNode(x.line));
      OpenStep(cc, visited, Lay(t), Star);
      ExprTracks(cc, PS.W(visited, "*"), Sign(Lay(t), Star), x.node.starred);
      hide ExprItems, PS.ExprShape;
      StarredUnfolds(sh, t, x);
    } else {
      ExprTracks(cc, sh, t, x);
    }
  }

  lemma StarredUnfolds(sh: PS.S, t: Items, x: P.Node<P.Expr>)
    requires x.node.Starred?
    ensures PS.ExprShape(sh, x) == PS.ExprShape(PS.W(PS.V(sh, PS.AtNode(x.line)), "*"), x.node.starred)
    ensures ExprItems(t, x) == ExprItems(Sign(Lay(t), Star), x.node.starred)
  {
    var visited := PS.V(sh, PS.AtNode(x.line));
    assert PS.ExprShape(sh, x) == PS.ExprKindShape(visited, x.node) == PS.OtherKindShape(visited, x.node);
    assert ExprItems(t, x) == KindItems(Lay(t), x.node) == OtherItems(Lay(t), x.node);
  }

  lemma SepTracks(cc: CharClass, sh: PS.S, t: Items, sep: PS.Sep)
    requires Tracks(cc, sh, t) && Shuts(t) && (sep.Item? ==> sep.oneLine)
    ensures Tracks(cc, PS.SepShape(sh, sep), Separated(t, sep)) && Free(Separated(t, sep))
  {
    hide Tracks, Free, Shuts;
    match sep
    case Comma => CommaStep(cc, sh, t);
    case Line => EndStep(cc, sh, t);
    case Item(_) => BetweenStep(cc, sh, t);
  }

  lemma ExprsUnfold(sh: PS.S, t: Items, xs: seq<P.Node<P.Expr>>, sep: PS.Sep)
    requires xs != []
    ensures var n := |xs| - 1;
      && PS.ExprsShape(sh, xs, sep)
        == PS.ExprShape(if n == 0 then sh else PS.SepShape(PS.ExprsShape(sh, xs[..n], sep), sep), xs[n])
      && ExprsItems(t, xs, sep) == ExprItems(if n == 0 then t else Separated(ExprsItems(t, xs[..n], sep), sep), xs[n])
  {
    hide PS.ExprShape, ExprItems, PS.SepShape, Separated;
  }

  lemma NoExprs(sh: PS.S, t: Items, sep: PS.Sep)
    ensures PS.ExprsShape(sh, [], sep) == sh && ExprsItems(t, [], sep) == t
  {
  }

  lemma {:induction false} ItemsTrack(cc: CharClass, sh: PS.S, t: Items, xs: seq<P.Node<P.Expr>>, sep: PS.Sep)
    requires cc.Standard() && Tracks(cc, sh, t) && Free(t) && OkItems(cc, xs) && (sep.Item? ==> sep.oneLine)
    ensures Tracks(cc, PS.ExprsShape(sh, xs, sep), ExprsItems(t, xs, sep))
    ensures xs != [] ==> Shuts(ExprsItems(t, xs, sep))
    decreases xs, 0
  {
    hide Tracks, Free, Shuts, OkItem, PS.ExprShape, ExprItems, PS.ExprsShape, ExprsItems, PS.SepShape, Separated;
    if xs == [] {
      NoExprs(sh, t, sep);
    } else {
      var n := |xs| - 1;
      ExprsUnfold(sh, t, xs, sep);
      if n == 0 {
        ItemTracks(cc, sh, t, xs[n]);
      } else {
        var b, u := PS.ExprsShape(sh, xs[..n], sep), ExprsItems(t, xs[..n], sep);
        ItemsTrack(cc, sh, t, xs[..n], sep);
        SepTracks(cc, b, u, sep);
        ItemTracks(cc, PS.SepShape(b, sep), Separated(u, sep), xs[n]);
      }
    }
  }

  lemma UnaryStep(cc: CharClass, sh: PS.S, t: Items, op: P.UnaryOp)
    requires cc.Standard() && Tracks(cc, sh, t) && Opens(t)
    ensures Tracks(cc, if op.Not? then PS.W(PS.W(sh, "not"), " ") else PS.W(sh, op.Symbol()), UnaryItems(t, op))
    ensures Opens(UnaryItems(t, op))
  {
    hide Tracks, Shuts;
    match op
    case UAdd => OpenStep(cc, sh, t, Plus);
    case USub => OpenStep(cc, sh, t, Minus);
    case Invert => OpenStep(cc, sh, t, Tilde);
    case Not =>
      AsciiWord(cc, "not");
      WordStep(cc, sh, t, "not");
      BlankStep(cc, PS.W(sh, "not"), Named(t, "not"));
  }

  lemma {:induction false} UnaryTracks(cc: CharClass, sh: PS.S, t: Items, op: P.UnaryOp, operand: P.Node<P.Expr>)
    requires cc.Standard() && Tracks(cc, sh, t) && Opens(t) && OkExpr(cc, operand)
    ensures var x := P.Unary(op, operand);
      Tracks(cc, PS.ExprKindShape(sh, x), KindItems(t, x)) && Shuts(KindItems(t, x))
    decreases operand, 2
  {
    hide Tracks, Opens, Shuts, OkExpr, PS.ExprShape, ExprItems, UnaryItems, P.UnaryOp.Symbol;
    UnaryStep(cc, sh, t, op);
    ExprTracks(cc, if op.Not? then PS.W(PS.W(sh, "not"), " ") else PS.W(sh, op.Symbol()), UnaryItems(t, op), operand);
  }

  // ----- operators -----

  lemma ArithStep(cc: CharClass, sh: PS.S, t: Items, op: P.ArithOp)
    requires Tracks(cc, sh, t) && Fresh(t)
    ensures Tracks(cc, PS.W(sh, op.Symbol()), Sign(t, ArithOp(op))) && Opens(Sign(t, ArithOp(op)))
  {
    hide Tracks, Fresh, Opens, Free;
    FreeOpens(t);
    assert Spelling(ArithOp(op)) == op.Symbol() && ArithOp(op) != Dollar;
    hide Spelling, P.ArithOp.Symbol, ArithOp;
    OpenStep(cc, sh, t, ArithOp(op));
  }

  /** Not a note: what a blank may follow. */
  predicate Solid(t: Items) { Last(t).Some? && !Last(t).value.Note? }

  lemma IsSolid(t: Items)
    ensures Last(t).Some? && Opens(t) ==> Solid(t)
    ensures Shuts(t) ==> Solid(t)
  {
  }

  lemma SignIsSolid(t: Items, op: Op)
    ensures Solid(Sign(t, op))
  {
  }

  lemma BinStep(cc: CharClass, sh: PS.S, t: Items, op: P.BinOp)
    requires cc.Standard() && Tracks(cc, sh, t) && Fresh(t)
    ensures Tracks(cc, PS.W(sh, op.Symbol()), BinItems(t, op)) && Solid(BinItems(t, op))
  {
    hide Tracks, Fresh, Opens, Shuts, Free, P.ArithOp.Symbol, Solid, Last;
    FreeOpens(t);
    AsciiWord(cc, "and");
    AsciiWord(cc, "or");
    AsciiWord(cc, "as");
    hide IsWord;
    IsSolid(BinItems(t, op));
    match op
    case Arith(arith) =>
      ArithStep(cc, sh, t, arith);
      SignIsSolid(t, ArithOp(arith));
    case And => WordStep(cc, sh, t, "and");
    case Or => WordStep(cc, sh, t, "or");
    case As => WordStep(cc, sh, t, "as");
  }

  lemma TwoWordsStep(cc: CharClass, sh: PS.S, t: Items, a: string, b: string)
    requires cc.Standard() && Tracks(cc, sh, t) && Fresh(t) && IsWord(cc, a) && IsWord(cc, b)
    ensures Tracks(cc, PS.W(sh, a + " " + b), Named(Blank(Named(t, a)), b)) && Shuts(Named(Blank(Named(t, a)), b))
  {
    hide Tracks, Fresh, Opens, Shuts, Free, IsWord, Last;
    FreeOpens(t);
    WordStep(cc, sh, t, a);
    ShutsIsNoNote(Named(t, a));
    BlankStep(cc, PS.W(sh, a), Named(t, a));
    WordStep(cc, PS.W(PS.W(sh, a), " "), Blank(Named(t, a)), b);
    Joined3(cc, sh, a, " ", b, Named(Blank(Named(t, a)), b));
  }

  lemma CmpWordStep(cc: CharClass, sh: PS.S, t: Items, op: P.CmpOp)
    requires cc.Standard() && Tracks(cc, sh, t) && Fresh(t)
    requires op.Is? || op.In? || op.NotIn? || op.CmpNot? || op.IsNot?
    ensures Tracks(cc, PS.W(sh, op.Symbol()), CmpItems(t, op)) && Shuts(CmpItems(t, op))
  {
    hide Tracks, Fresh, Opens, Shuts, Free;
    FreeOpens(t);
    AsciiWord(cc, "is");
    AsciiWord(cc, "in");
    AsciiWord(cc, "not");
    hide IsWord;
    match op
    case Is => WordStep(cc, sh, t, "is");
    case In => WordStep(cc, sh, t, "in");
    case CmpNot => WordStep(cc, sh, t, "not");
    case NotIn =>
      TwoWordsStep(cc, sh, t, "not", "in");
      assert "not" + " " + "in" == "not in";
    case IsNot =>
      TwoWordsStep(cc, sh, t, "is", "not");
      assert "is" + " " + "not" == "is not";
  }

  lemma CmpStep(cc: CharClass, sh: PS.S, t: Items, op: P.CmpOp)
    requires cc.Standard() && Tracks(cc, sh, t) && Fresh(t)
    ensures Tracks(cc, PS.W(sh, op.Symbol()), CmpItems(t, op)) && Solid(CmpItems(t, op))
  {
    hide Tracks, Fresh, Opens, Shuts, Free, Solid, Last;
    FreeOpens(t);
    IsSolid(CmpItems(t, op));
    match op
    case Eq => SignTracks(cc, sh, t, EqEq);
    case NotEq => SignTracks(cc, sh, t, BangEq);
    case Lt => SignTracks(cc, sh, t, Op.Lt);
    case LtE => SignTracks(cc, sh, t, LtEq);
    case Gt => SignTracks(cc, sh, t, Op.Gt);
    case GtE => SignTracks(cc, sh, t, GtEq);
    case _ => CmpWordStep(cc, sh, t, op);
  }

  lemma SignTracks(cc: CharClass, sh: PS.S, t: Items, op: Op)
    requires Tracks(cc, sh, t) && Fresh(t) && op != Dollar
    ensures Tracks(cc, PS.W(sh, Spelling(op)), Sign(t, op)) && Solid(Sign(t, op))
  {
    hide Tracks, Fresh, Opens, Shuts, Free, Solid, Spelling;
    FreeOpens(t);
    OpenStep(cc, sh, t, op);
    SignIsSolid(t, op);
  }

  lemma OpStep(cc: CharClass, sh: PS.S, t: Items, op: P.BinOrCmpOp)
    requires cc.Standard() && Tracks(cc, sh, t) && Shuts(t)
    ensures var t' := Blank(OpItems(Blank(t), op));
      Tracks(cc, PS.W(PS.W(PS.W(sh, " "), op.Symbol()), " "), t') && Opens(t')
  {
    hide Tracks, Fresh, Opens, Shuts, Free, P.BinOp.Symbol, P.CmpOp.Symbol, BinItems, CmpItems;
    ShutsIsNoNote(t);
    BlankStep(cc, sh, t);
    match op {
      case Bin(bin) => BinStep(cc, PS.W(sh, " "), Blank(t), bin);
      case Cmp(cmp) => CmpStep(cc, PS.W(sh, " "), Blank(t), cmp);
    }
    BlankStep(cc, PS.W(PS.W(sh, " "), op.Symbol()), OpItems(Blank(t), op));
  }

  lemma {:induction false} BinaryTracks(cc: CharClass, sh: PS.S, t: Items, left: P.Node<P.Expr>, op: P.BinOrCmpOp,
                                        right: P.Node<P.Expr>)
    requires cc.Standard() && Tracks(cc, sh, t) && Opens(t) && OkExpr(cc, left) && OkExpr(cc, right)
    ensures var x := P.Binary(left, op, right);
      Tracks(cc, PS.ExprKindShape(sh, x), KindItems(t, x)) && Shuts(KindItems(t, x))
    decreases P.Binary(left, op, right), 2
  {
    hide Tracks, Opens, Shuts, OkExpr, PS.ExprShape, ExprItems, OpItems, P.BinOrCmpOp.Symbol, Blank;
    var b, u := PS.ExprShape(sh, left), ExprItems(t, left);
    ExprTracks(cc, sh, t, left);
    OpStep(cc, b, u, op);
    ExprTracks(cc, PS.W(PS.W(PS.W(b, " "), op.Symbol()), " "), Blank(OpItems(Blank(u), op)), right);
  }

  lemma MiddleStep(cc: CharClass, sh: PS.S, t: Items, w: string)
    requires cc.Standard() && Tracks(cc, sh, t) && Shuts(t)
    requires w == "if" || w == "else" || w == "in" || w == "for" || w == "as"
    ensures Tracks(cc, PS.W(sh, " " + w + " "), Mid(t, w)) && Fresh(Mid(t, w)) && Opens(Mid(t, w))
    ensures w == "if" ==> Tracks(cc, PS.W(sh, " if "), Mid(t, "if")) && Opens(Mid(t, "if"))
    ensures w == "else" ==> Tracks(cc, PS.W(sh, " else "), Mid(t, "else")) && Opens(Mid(t, "else"))
    ensures w == "in" ==> Tracks(cc, PS.W(sh, " in "), Mid(t, "in")) && Opens(Mid(t, "in"))
    ensures w == "for" ==> Tracks(cc, PS.W(sh, " for "), Mid(t, "for")) && Opens(Mid(t, "for"))
    ensures w == "as" ==> Tracks(cc, PS.W(sh, " as "), Mid(t, "as")) && Opens(Mid(t, "as"))
  {
    hide Tracks, Fresh, Opens, Shuts, Free;
    AsciiWord(cc, w);
    hide IsWord;
    MidStep(cc, sh, t, w);
    assert " " + "if" + " " == " if " && " " + "else" + " " == " else " && " " + "in" + " " == " in ";
    assert " " + "for" + " " == " for " && " " + "as" + " " == " as ";
  }

  lemma {:induction false} IfExprTracks(cc: CharClass, sh: PS.S, t: Items, body: P.Node<P.Expr>, cond: P.Node<P.Expr>,
                                        orelse: P.Node<P.Expr>)
    requires cc.Standard() && Tracks(cc, sh, t) && Opens(t)
    requires OkExpr(cc, body) && OkExpr(cc, cond) && OkExpr(cc, orelse)
    ensures var x := P.IfExpr(body, cond, orelse);
      Tracks(cc, PS.ExprKindShape(sh, x), KindItems(t, x)) && Shuts(KindItems(t, x))
    decreases P.IfExpr(body, cond, orelse), 2
  {
    hide Tracks, Opens, Shuts, Fresh, OkExpr, PS.ExprShape, ExprItems, Mid;
    var b, u := PS.ExprShape(sh, body), ExprItems(t, body);
    ExprTracks(cc, sh, t, body);
    MiddleStep(cc, b, u, "if");
    var c, v := PS.ExprShape(PS.W(b, " if "), cond), ExprItems(Mid(u, "if"), cond);
    ExprTracks(cc, PS.W(b, " if "), Mid(u, "if"), cond);
    MiddleStep(cc, c, v, "else");
    ExprTracks(cc, PS.W(c, " else "), Mid(v, "else"), orelse);
  }

  lemma {:induction false} SelectorTracks(cc: CharClass, sh: PS.S, t: Items, value: P.Node<P.Expr>, attr: P.Identifier,
                                          hasQuestion: bool)
    requires cc.Standard() && Tracks(cc, sh, t) && Opens(t) && OkExpr(cc, value)
    requires attr.names != [] && FieldsOk(cc, attr.names)
    ensures var x := P.Selector(value, attr, hasQuestion);
      Tracks(cc, PS.ExprKindShape(sh, x), KindItems(t, x)) && Shuts(KindItems(t, x))
    decreases P.Selector(value, attr, hasQuestion), 2
  {
    hide Tracks, Opens, Shuts, Free, OkExpr, PS.ExprShape, ExprItems, FieldsItems, FieldsOk, PS.Name;
    var b, u := PS.ExprShape(sh, value), ExprItems(t, value);
    ExprTracks(cc, sh, t, value);
    if hasQuestion {
      CloseStep(cc, b, u, Op.Question);
      SelectStep(cc, PS.W(b, "?"), Sign(u, Op.Question), attr);
      JoinedCells(b, "?", ".");
      var dotted := FieldsItems(Sign(u, Op.Question), attr.names);
      SameTracks(cc, PS.W(PS.W(b, "?"), "."), PS.W(b, "?."), PS.Name(attr), dotted);
    } else {
      SelectStep(cc, b, u, attr);
    }
  }

  lemma SameTracks(cc: CharClass, a: PS.S, b: PS.S, text: string, t: Items)
    requires Cells(a) == Cells(b)
    ensures Tracks(cc, PS.W(a, text), t) <==> Tracks(cc, PS.W(b, text), t)
  {
    hide Cells, AllCells, Reads, Chars;
    CellsAppend(a, PS.Tok(text));
    CellsAppend(b, PS.Tok(text));
  }

  lemma {:induction false} ParenTracks(cc: CharClass, sh: PS.S, t: Items, x: P.Node<P.Expr>)
    requires cc.Standard() && Tracks(cc, sh, t) && Opens(t) && OkExpr(cc, x)
    ensures Tracks(cc, PS.ExprKindShape(sh, P.Paren(x)), KindItems(t, P.Paren(x))) && Shuts(KindItems(t, P.Paren(x)))
    decreases x, 2
  {
    hide Tracks, Opens, Shuts, Free, OkExpr, PS.ExprShape, ExprItems;
    OpenStep(cc, sh, t, OpenParen);
    ExprTracks(cc, PS.W(sh, "("), Sign(t, OpenParen), x);
    CloseStep(cc, PS.ExprShape(PS.W(sh, "("), x), ExprItems(Sign(t, OpenParen), x), CloseParen);
  }
  // ----- calls, keywords, quantifiers, lists -----

  lemma {:induction false} KeywordTracks(cc: CharClass, sh: PS.S, t: Items, x: P.Keyword)
    requires cc.Standard() && Tracks(cc, sh, t) && Opens(t) && OkKeyword(cc, x)
    ensures Tracks(cc, PS.KeywordShape(sh, x), KeywordItems(t, x)) && Shuts(KeywordItems(t, x))
    decreases x
  {
    hide Tracks, Opens, Shuts, Free, OkExpr, PS.ExprShape, ExprItems, NameItems, PS.Name, NameOk;
    NameStep(cc, sh, t, x.arg);
    if x.value.Some? {
      var b, u := PS.W(sh, PS.Name(x.arg)), NameItems(t, x.arg);
      CloseStep(cc, b, u, Op.Eq);
      ExprTracks(cc, PS.W(b, "="), Sign(u, Op.Eq), x.value.value);
    }
  }

  lemma KeywordsUnfold(sh: PS.S, t: Items, xs: seq<P.Keyword>)
    requires xs != []
    ensures var n := |xs| - 1;
      && PS.KeywordsShape(sh, xs)
        == PS.KeywordShape(if n == 0 then sh else PS.W(PS.KeywordsShape(sh, xs[..n]), ", "), xs[n])
      && KeywordsItems(t, xs) == KeywordItems(if n == 0 then t else Listed(KeywordsItems(t, xs[..n])), xs[n])
  {
    hide PS.KeywordShape, KeywordItems;
  }

  lemma {:induction false} KeywordsTrack(cc: CharClass, sh: PS.S, t: Items, xs: seq<P.Keyword>)
    requires cc.Standard() && Tracks(cc, sh, t) && Opens(t) && OkKeywords(cc, xs)
    ensures Tracks(cc, PS.KeywordsShape(sh, xs), KeywordsItems(t, xs)) && (xs != [] ==> Shuts(KeywordsItems(t, xs)))
    decreases xs, 0
  {
    hide Tracks, Opens, Shuts, Free, Fresh, OkKeyword, PS.KeywordShape, KeywordItems, Listed;
    if xs != [] {
      var n := |xs| - 1;
      KeywordsUnfold(sh, t, xs);
      var b, u := PS.KeywordsShape(sh, xs[..n]), KeywordsItems(t, xs[..n]);
      hide PS.KeywordsShape, KeywordsItems;
      if n == 0 {
        KeywordTracks(cc, sh, t, xs[n]);
      } else {
        KeywordsTrack(cc, sh, t, xs[..n]);
        CommaStep(cc, b, u);
        KeywordTracks(cc, PS.W(b, ", "), Listed(u), xs[n]);
      }
    }
  }

  /** Keyword arguments, behind positional ones or not. */
  lemma {:induction false} KwargsTrack(cc: CharClass, sh: PS.S, t: Items, more: bool, kwargs: seq<P.Keyword>)
    requires cc.Standard() && Tracks(cc, sh, t) && Shuts(t) && (!more ==> Opens(t)) && OkKeywords(cc, kwargs)
    ensures Tracks(cc, PS.CallArgumentsShape(sh, more, kwargs), CallArgumentsItems(t, more, kwargs))
    ensures Shuts(CallArgumentsItems(t, more, kwargs))
    decreases kwargs, 1
  {
    hide Tracks, Opens, Shuts, Free, Fresh, OkKeywords, PS.KeywordsShape, KeywordsItems, Listed;
    if kwargs == [] {
      NoKeywords(sh, t);
    } else if more {
      CommaStep(cc, sh, t);
      KeywordsTrack(cc, PS.W(sh, ", "), Listed(t), kwargs);
    } else {
      KeywordsTrack(cc, sh, t, kwargs);
    }
  }

  lemma NoKeywords(sh: PS.S, t: Items)
    ensures PS.KeywordsShape(sh, []) == sh && KeywordsItems(t, []) == t
  {
  }

  lemma {:induction false} CallTracks(cc: CharClass, sh: PS.S, t: Items, call: P.CallExpr)
    requires cc.Standard() && Tracks(cc, sh, t) && Opens(t) && OkCall(cc, call)
    ensures Tracks(cc, PS.CallShape(sh, call), CallItems(t, call)) && Shuts(CallItems(t, call))
    decreases call
  {
    hide Tracks, Opens, Shuts, Free, OkExpr, OkItems, OkKeywords, PS.ExprShape, ExprItems, PS.ExprsShape, ExprsItems;
    hide PS.CallArgumentsShape, CallArgumentsItems;
    var b, u := PS.ExprShape(sh, call.func), ExprItems(t, call.func);
    ExprTracks(cc, sh, t, call.func);
    CloseStep(cc, b, u, OpenParen);
    var c, v := PS.W(b, "("), Sign(u, OpenParen);
    FreeOpens(v);
    ItemsTrack(cc, c, v, call.args, PS.Comma);
    if call.args == [] { NoExprs(c, v, PS.Comma); }
    KwargsTrack(cc, PS.ExprsShape(c, call.args, PS.Comma), ExprsItems(v, call.args, PS.Comma), call.args != [],
                call.keywords);
    CloseStep(cc, PS.CallArgumentsShape(PS.ExprsShape(c, call.args, PS.Comma), call.args != [], call.keywords),
              CallArgumentsItems(ExprsItems(v, call.args, PS.Comma), call.args != [], call.keywords), CloseParen);
  }

  lemma QuantWord(cc: CharClass, op: P.QuantOperation)
    requires cc.Standard()
    ensures IsWord(cc, op.Symbol())
    ensures op.Symbol() == match op case All => "all" case Any => "any" case Filter => "filter" case Map => "map"
  {
    AsciiWord(cc, op.Symbol());
  }

  lemma {:induction false} QuantTracks(cc: CharClass, sh: PS.S, t: Items, q: P.QuantExpr)
    requires cc.Standard() && Tracks(cc, sh, t) && Opens(t) && OkQuant(cc, q)
    ensures Tracks(cc, PS.QuantShape(sh, q), QuantItems(t, q)) && Shuts(QuantItems(t, q))
    decreases q
  {
    hide Tracks, Opens, Shuts, Free, Fresh, OkExpr, OkNames, PS.ExprShape, ExprItems, PS.IdentifiersShape, NamesItems;
    hide P.QuantOperation.Symbol, IsWord, Mid, Blank, Named;
    var w := q.op.Symbol();
    QuantWord(cc, q.op);
    WordStep(cc, sh, t, w);
    ShutsIsNoNote(Named(t, w));
    BlankStep(cc, PS.W(sh, w), Named(t, w));
    var a1, t1 := PS.W(PS.W(sh, w), " "), Blank(Named(t, w));
    var a2, t2 := PS.IdentifiersShape(a1, q.variables), NamesItems(t1, q.variables);
    NamesTrack(cc, a1, t1, q.variables);
    MiddleStep(cc, a2, t2, "in");
    var a3, t3 := PS.ExprShape(PS.W(a2, " in "), q.target), ExprItems(Mid(t2, "in"), q.target);
    ExprTracks(cc, PS.W(a2, " in "), Mid(t2, "in"), q.target);
    BraceStep(cc, a3, t3);
    var a4, t4 := PS.I(PS.W(a3, " {")), Sign(Blank(t3), OpenBrace);
    IndentStep(cc, PS.W(a3, " {"), t4);
    EndStep(cc, a4, t4);
    var a5, t5 := PS.ExprShape(PS.N(a4), q.test), ExprItems(End(t4), q.test);
    ExprTracks(cc, PS.N(a4), End(t4), q.test);
    var a6 := PS.OptionShape(a5, " if ", q.ifCond);
    var t6 := match q.ifCond case Some(cond) => ExprItems(Mid(t5, "if"), cond) case None => t5;
    if q.ifCond.Some? {
      MiddleStep(cc, a5, t5, "if");
      ExprTracks(cc, PS.W(a5, " if "), Mid(t5, "if"), q.ifCond.value);
    }
    IndentStep(cc, a6, t6);
    EndStep(cc, PS.D(a6), t6);
    CloseStep(cc, PS.N(PS.D(a6)), End(t6), CloseBrace);
  }

  /** Names before something else. */
  lemma NamesTrack(cc: CharClass, sh: PS.S, t: Items, xs: seq<P.Identifier>)
    requires Tracks(cc, sh, t) && Opens(t) && Shuts(t) && OkNames(cc, xs)
    ensures Tracks(cc, PS.IdentifiersShape(sh, xs), NamesItems(t, xs)) && Shuts(NamesItems(t, xs))
  {
    hide Tracks, Opens, Shuts, NameOk;
    NamesStep(cc, sh, t, xs);
  }

  lemma BraceStep(cc: CharClass, sh: PS.S, t: Items)
    requires Tracks(cc, sh, t) && Shuts(t)
    ensures var t' := Sign(Blank(t), OpenBrace);
      Tracks(cc, PS.W(sh, " {"), t') && Tracks(cc, PS.W(PS.W(sh, " "), "{"), t') && Free(t') && Opens(t') && Shuts(t')
  {
    hide Tracks, Opens, Shuts, Free, Fresh, Last;
    ShutsIsNoNote(t);
    BlankStep(cc, sh, t);
    OpenStep(cc, PS.W(sh, " "), Blank(t), OpenBrace);
    Joined(cc, sh, " ", "{", Sign(Blank(t), OpenBrace));
    assert " " + "{" == " {";
  }

  lemma {:induction false} ListTracks(cc: CharClass, sh: PS.S, t: Items, elts: seq<P.Node<P.Expr>>)
    requires cc.Standard() && Tracks(cc, sh, t) && Opens(t) && OkItems(cc, elts)
    ensures Tracks(cc, PS.ListShape(sh, elts), ListItems(t, elts)) && Shuts(ListItems(t, elts))
    decreases elts, 1
  {
    hide Tracks, Opens, Shuts, Free, OkItems, PS.ExprsShape, ExprsItems;
    OpenStep(cc, sh, t, OpenBracket);
    var b, u := PS.W(sh, "["), Sign(t, OpenBracket);
    LayStep(cc, b, u);
    LaySame(u);
    var c := PS.O(b, PS.ExprLines(elts), PS.StartsConditional(elts));
    var d, v := PS.ExprsShape(c, elts, PS.Item(true)), ExprsItems(Lay(u), elts, PS.Item(true));
    ItemsTrack(cc, c, Lay(u), elts, PS.Item(true));
    if elts == [] { NoExprs(c, Lay(u), PS.Item(true)); }
    LayStep(cc, d, v);
    LaySame(v);
    CloseStep(cc, PS.C(d), Lay(v), CloseBracket);
  }

  /** A colon at the end of a line. */
  lemma HeadStep(cc: CharClass, sh: PS.S, t: Items)
    requires Tracks(cc, sh, t) && Shuts(t)
    ensures var t' := End(Sign(t, Op.Colon));
      && Tracks(cc, PS.N(PS.I(PS.W(sh, ":"))), t') && Tracks(cc, PS.I(PS.B(PS.W(sh, ":"))), t')
      && Tracks(cc, PS.B(PS.W(sh, ":")), t') && Fresh(t') && Free(t') && Opens(t') && Shuts(t')
  {
    hide Tracks, Opens, Shuts, Free, Fresh;
    CloseStep(cc, sh, t, Op.Colon);
    var b, u := PS.W(sh, ":"), Sign(t, Op.Colon);
    IndentStep(cc, b, u);
    EndStep(cc, PS.I(b), u);
    EndStep(cc, b, u);
    IndentStep(cc, PS.B(b), End(u));
  }

  /** `else` and a colon at the end of a line. */
  lemma ElseStep(cc: CharClass, sh: PS.S, t: Items)
    requires cc.Standard() && Tracks(cc, sh, t) && Opens(t)
    ensures var t' := End(Sign(Named(t, "else"), Op.Colon));
      && Tracks(cc, PS.N(PS.I(PS.W(sh, "else:"))), t') && Tracks(cc, PS.I(PS.B(PS.W(sh, "else:"))), t')
      && Fresh(t') && Free(t') && Opens(t') && Shuts(t')
  {
    hide Opens, Shuts, Free, Fresh, Cells, AllCells, Reads;
    AsciiWord(cc, "else");
    hide IsWord;
    assert Tracks(cc, PS.W(sh, "else"), Named(t, "else")) by { WordStep(cc, sh, t, "else"); }
    WordStep(cc, sh, t, "else");
    HeadStep(cc, PS.W(sh, "else"), Named(t, "else"));
    assert "else" + ":" == "else:";
    HeadJoined(cc, sh, "else", End(Sign(Named(t, "else"), Op.Colon)));
  }

  lemma HeadJoined(cc: CharClass, sh: PS.S, w: string, t: Items)
    ensures Tracks(cc, PS.N(PS.I(PS.W(PS.W(sh, w), ":"))), t) <==> Tracks(cc, PS.N(PS.I(PS.W(sh, w + ":"))), t)
    ensures Tracks(cc, PS.I(PS.B(PS.W(PS.W(sh, w), ":"))), t) <==> Tracks(cc, PS.I(PS.B(PS.W(sh, w + ":"))), t)
  {
    hide Cells, AllCells, Reads;
    JoinedCells(sh, w, ":");
    var a, b := PS.W(PS.W(sh, w), ":"), PS.W(sh, w + ":");
    SamePiece(a, b, PS.Enter);
    SamePiece(PS.I(a), PS.I(b), PS.Newline(0));
    SamePiece(a, b, PS.Break);
    SamePiece(PS.B(a), PS.B(b), PS.Enter);
  }

  lemma SamePiece(a: PS.S, b: PS.S, piece: PS.Piece)
    requires Cells(a) == Cells(b)
    ensures Cells(a + [piece]) == Cells(b + [piece])
  {
    CellsAppend(a, piece);
    CellsAppend(b, piece);
  }

  /** Behind `if` or `elif`. */
  lemma {:induction false} ListIfTracks(cc: CharClass, sh: PS.S, t: Items, x: P.ListIfItemExpr)
    requires cc.Standard() && Tracks(cc, PS.W(sh, "if "), t) && Opens(t) && OkListIf(cc, x)
    ensures Tracks(cc, PS.ListIfShape(sh, x), ListIfItems(t, x)) && Shuts(ListIfItems(t, x))
    decreases x, 0
  {
    hide Tracks, Opens, Shuts, Free, Fresh, OkExpr, OkItems, PS.ExprsShape, ExprsItems, PS.ExprShape, ExprItems;
    var a1, t1 := PS.ExprShape(PS.W(sh, "if "), x.ifCond), ExprItems(t, x.ifCond);
    ExprTracks(cc, PS.W(sh, "if "), t, x.ifCond);
    HeadStep(cc, a1, t1);
    var a2, t2 := PS.N(PS.I(PS.W(a1, ":"))), End(Sign(t1, Op.Colon));
    var a3, t3 := PS.ExprsShape(a2, x.exprs, PS.Line), ExprsItems(t2, x.exprs, PS.Line);
    ItemsTrack(cc, a2, t2, x.exprs, PS.Line);
    IndentStep(cc, a3, t3);
    EndStep(cc, PS.D(a3), t3);
    var a4, t4 := PS.N(PS.D(a3)), End(t3);
    match x.orelse {
      case NoListElse =>
      case ListElse(elts) =>
        ElseStep(cc, a4, t4);
        var a5, t5 := PS.N(PS.I(PS.W(a4, "else:"))), End(Sign(Named(t4, "else"), Op.Colon));
        ItemsTrack(cc, a5, t5, elts, PS.Line);
        if elts == [] { NoExprs(a5, t5, PS.Line); }
        IndentStep(cc, PS.ExprsShape(a5, elts, PS.Line), ExprsItems(t5, elts, PS.Line));
      case ListElif(line, listIf) =>
        SplitStep(cc, a4, t4, line);
        ListIfTracks(cc, PS.V(PS.W(a4, "el"), PS.AtNode(line)), Blank(t4 + [Split]), listIf);
    }
  }
  // ----- configurations and comprehensions -----

  lemma OperationStep(cc: CharClass, sh: PS.S, t: Items, operation: P.EntryOperation)
    requires Tracks(cc, sh, t) && Shuts(t)
    ensures Tracks(cc, PS.OperationShape(sh, operation), OperationItems(t, operation))
    ensures Opens(OperationItems(t, operation))
  {
    hide Tracks, Opens, Shuts, Free, Fresh;
    match operation
    case Union => ColonStep(cc, sh, t);
    case Override => SignStep(cc, sh, t, Op.Eq);
    case Insert => SignStep(cc, sh, t, PlusEq);
  }

  lemma NumeralStep(cc: CharClass, sh: PS.S, t: Items, n: nat)
    requires Tracks(cc, sh, t) && Opens(t)
    ensures Tracks(cc, PS.W(sh, TypePrinter.IntText(n)), A(t, Num(n, None))) && Shuts(A(t, Num(n, None)))
  {
    hide Tracks, Numeral;
    AtomStep(cc, sh, t, Num(n, None));
    assert NumberText(n, None) == TypePrinter.IntText(n);
  }

  /** An index in brackets. */
  lemma IndexStep(cc: CharClass, sh: PS.S, t: Items, n: nat)
    requires Tracks(cc, sh, t) && Shuts(t)
    ensures var t' := Sign(A(Sign(t, OpenBracket), Num(n, None)), CloseBracket);
      Tracks(cc, PS.W(sh, "[" + TypePrinter.IntText(n) + "]"), t') && Shuts(t')
  {
    hide Tracks, Opens, Shuts, Free, TypePrinter.IntText;
    CloseStep(cc, sh, t, OpenBracket);
    NumeralStep(cc, PS.W(sh, "["), Sign(t, OpenBracket), n);
    var text := TypePrinter.IntText(n);
    CloseStep(cc, PS.W(PS.W(sh, "["), text), A(Sign(t, OpenBracket), Num(n, None)), CloseBracket);
    Joined3(cc, sh, "[", text, "]", Sign(A(Sign(t, OpenBracket), Num(n, None)), CloseBracket));
  }

  lemma {:induction false} BracedStep(cc: CharClass, sh: PS.S, t: Items, names: seq<P.Part>)
    requires Tracks(cc, sh, t) && Opens(t) && names != [] && forall part | part in names :: TextOk(cc, part.debug)
    ensures Tracks(cc, PS.W(sh, PS.Braced(names)), BracedItems(t, names)) && Shuts(BracedItems(t, names))
    decreases |names|
  {
    hide Tracks, Opens, Shuts, Free, Fresh, AtomOk, Typed;
    var n := |names| - 1;
    if n == 0 {
      GivenStep(cc, sh, t, names[0].debug);
      assert "" + names[0].debug == names[0].debug;
    } else {
      BracedStep(cc, sh, t, names[..n]);
      var front := PS.Braced(names[..n]);
      var b, u := PS.W(sh, front), BracedItems(t, names[..n]);
      ColonStep(cc, b, u);
      OpenStep(cc, PS.W(b, ": "), Typed(u), OpenBrace);
      var v := Sign(Typed(u), OpenBrace);
      GivenStep(cc, PS.W(PS.W(b, ": "), "{"), v, names[n].debug);
      Joined3(cc, b, ": ", "{", names[n].debug, A(v, Given(names[n].debug)));
      Joined(cc, sh, front, ": " + "{" + names[n].debug, A(v, Given(names[n].debug)));
      BracedText(names);
      hide PS.Braced;
    }
  }

  lemma BracedText(names: seq<P.Part>)
    requires |names| > 1
    ensures var n := |names| - 1; PS.Braced(names) == PS.Braced(names[..n]) + (": " + "{" + names[n].debug)
  {
    var n := |names| - 1;
    hide PS.Braced;
    BracedUnfolds(names);
    ColonBrace();
    Associates(PS.Braced(names[..n]), ": {", names[n].debug);
  }

  lemma ColonBrace()
    ensures ": " + "{" == ": {"
  {
  }

  lemma Associates(a: string, b: string, c: string)
    ensures (a + b) + c == a + (b + c)
  {
  }

  lemma BracedUnfolds(names: seq<P.Part>)
    requires |names| > 1
    ensures var n := |names| - 1; PS.Braced(names) == (PS.Braced(names[..n]) + ": {") + names[n].debug
  {
  }

  lemma {:induction false} ClosedStep(cc: CharClass, sh: PS.S, t: Items, n: nat)
    requires Tracks(cc, sh, t) && Shuts(t)
    ensures Tracks(cc, PS.W(sh, seq(n, _ => '}')), ClosedItems(t, n)) && Shuts(ClosedItems(t, n))
    decreases n
  {
    hide Tracks, Opens, Shuts, Free;
    if n == 0 {
      EmptyStep(cc, sh, t);
      assert seq(0, _ => '}') == "";
    } else {
      ClosedStep(cc, sh, t, n - 1);
      CloseStep(cc, PS.W(sh, seq(n - 1, _ => '}')), ClosedItems(t, n - 1), CloseBrace);
      Joined(cc, sh, seq(n - 1, _ => '}'), "}", ClosedItems(t, n));
      assert seq(n - 1, _ => '}') + "}" == seq(n, _ => '}');
    }
  }

  lemma TakenApartIsNested(key: P.Expr)
    ensures TakenApart(key) <==> PS.Nested(key)
    ensures TakenApart(key) ==> key.Ident? && key.identifier.names != []
  {
    if PS.Nested(key) {
      var part :| part in key.identifier.names && !part.isPlain;
      var i :| 0 <= i < |key.identifier.names| && key.identifier.names[i] == part;
    }
  }

  lemma {:induction false} KeyTracks(cc: CharClass, sh: PS.S, t: Items, key: P.Node<P.Expr>)
    requires cc.Standard() && Tracks(cc, sh, t) && Opens(t) && OkKey(cc, key)
    ensures Tracks(cc, PS.KeyShape(sh, key), KeyItems(t, key)) && Shuts(KeyItems(t, key))
    decreases key, 1
  {
    hide Tracks, Opens, Shuts, OkExpr, PS.ExprShape, ExprItems, PS.Nested, TakenApart, PS.Braced, BracedItems, AtomOk;
    TakenApartIsNested(key.node);
    LayStep(cc, sh, t);
    LaySame(t);
    if TakenApart(key.node) {
      BracedStep(cc, PS.V(sh, PS.AtNode(key.line)), Lay(t), key.node.identifier.names);
    } else if key.node.Ident? {
      ExprTracks(cc, PS.V(sh, PS.AtNode(key.line)), Lay(t), key);
    } else {
      ExprTracks(cc, sh, t, key);
    }
  }

  lemma ClosingStep(cc: CharClass, sh: PS.S, t: Items, key: P.Expr)
    requires Tracks(cc, sh, t) && Shuts(t)
    ensures Tracks(cc, PS.W(sh, PS.ClosingBraces(key)), ClosingItems(t, key)) && Shuts(ClosingItems(t, key))
  {
    hide Tracks, Shuts, PS.Nested, TakenApart, ClosedItems;
    TakenApartIsNested(key);
    if TakenApart(key) { ClosedStep(cc, sh, t, |key.identifier.names| - 1); } else { EmptyStep(cc, sh, t); }
  }

  lemma {:induction false} EntryTracks(cc: CharClass, sh: PS.S, t: Items, item: P.Node<P.ConfigEntry>)
    requires cc.Standard() && Tracks(cc, sh, t) && Free(t) && OkEntry(cc, item)
    ensures Tracks(cc, PS.EntryShape(sh, item), EntryItems(t, item)) && Shuts(EntryItems(t, item))
    decreases item
  {
    hide Tracks, Opens, Shuts, Free, OkExpr, PS.ExprShape, ExprItems, PS.OperationShape, OperationItems, PS.KeyShape;
    hide KeyItems, OkKey, PS.ClosingBraces, ClosingItems, TypePrinter.IntText;
    FreeOpens(t);
    var entry := item.node;
    match entry.key {
      case Some(key) =>
        KeyTracks(cc, sh, t, key);
        var a1, t1 := PS.KeyShape(sh, key), KeyItems(t, key);
        if entry.insertIndex >= 0 { IndexStep(cc, a1, t1, entry.insertIndex); }
        var a2 := if entry.insertIndex >= 0 then PS.W(a1, "[" + TypePrinter.IntText(entry.insertIndex) + "]") else a1;
        var t2 :=
          if entry.insertIndex >= 0 then Sign(A(Sign(t1, OpenBracket), Num(entry.insertIndex, None)), CloseBracket)
          else t1;
        OperationStep(cc, a2, t2, entry.operation);
        var a3, t3 := PS.OperationShape(a2, entry.operation), OperationItems(t2, entry.operation);
        ExprTracks(cc, a3, t3, entry.value);
        ClosingStep(cc, PS.ExprShape(a3, entry.value), ExprItems(t3, entry.value), key.node);
      case None =>
        if entry.value.node.ConfigIfEntry? {
          ExprTracks(cc, sh, t, entry.value);
        } else {
          OpenStep(cc, sh, t, StarStar);
          ExprTracks(cc, PS.W(sh, "**"), Sign(t, StarStar), entry.value);
        }
    }
  }

  lemma EntriesUnfold(sh: PS.S, t: Items, xs: seq<P.Node<P.ConfigEntry>>, sep: PS.Sep)
    requires xs != []
    ensures var n := |xs| - 1;
      && PS.EntriesShape(sh, xs, sep)
        == PS.EntryShape(if n == 0 then sh else PS.SepShape(PS.EntriesShape(sh, xs[..n], sep), sep), xs[n])
      && EntriesItems(t, xs, sep)
        == EntryItems(if n == 0 then t else Separated(EntriesItems(t, xs[..n], sep), sep), xs[n])
  {
    hide PS.EntryShape, EntryItems, PS.SepShape, Separated;
  }

  lemma NoEntries(sh: PS.S, t: Items, sep: PS.Sep)
    ensures PS.EntriesShape(sh, [], sep) == sh && EntriesItems(t, [], sep) == t
  {
  }

  lemma {:induction false} EntriesTrack(cc: CharClass, sh: PS.S, t: Items, xs: seq<P.Node<P.ConfigEntry>>, sep: PS.Sep)
    requires cc.Standard() && Tracks(cc, sh, t) && Free(t) && OkEntries(cc, xs) && (sep.Item? ==> sep.oneLine)
    ensures Tracks(cc, PS.EntriesShape(sh, xs, sep), EntriesItems(t, xs, sep))
    ensures xs != [] ==> Shuts(EntriesItems(t, xs, sep))
    decreases xs, 0
  {
    hide Tracks, Free, Shuts, OkEntry, PS.EntryShape, EntryItems, PS.EntriesShape, EntriesItems, PS.SepShape, Separated;
    if xs == [] {
      NoEntries(sh, t, sep);
    } else {
      var n := |xs| - 1;
      EntriesUnfold(sh, t, xs, sep);
      if n == 0 {
        EntryTracks(cc, sh, t, xs[n]);
      } else {
        var b, u := PS.EntriesShape(sh, xs[..n], sep), EntriesItems(t, xs[..n], sep);
        EntriesTrack(cc, sh, t, xs[..n], sep);
        SepTracks(cc, b, u, sep);
        EntryTracks(cc, PS.SepShape(b, sep), Separated(u, sep), xs[n]);
      }
    }
  }

  lemma {:induction false} ConfigTracks(cc: CharClass, sh: PS.S, t: Items, items: seq<P.Node<P.ConfigEntry>>)
    requires cc.Standard() && Tracks(cc, sh, t) && Opens(t) && OkEntries(cc, items)
    ensures Tracks(cc, PS.ConfigShape(sh, items), ConfigItems(t, items)) && Shuts(ConfigItems(t, items))
    decreases items, 1
  {
    hide Tracks, Opens, Shuts, Free, OkEntries, PS.EntriesShape, EntriesItems;
    OpenStep(cc, sh, t, OpenBrace);
    var b, u := PS.W(sh, "{"), Sign(t, OpenBrace);
    if items == [] {
      CloseStep(cc, b, u, CloseBrace);
    } else {
      LayStep(cc, b, u);
      LaySame(u);
      var c := PS.O(b, PS.EntryLines(items), PS.IsBlock(items));
      var d, v := PS.EntriesShape(c, items, PS.Item(true)), EntriesItems(Lay(u), items, PS.Item(true));
      EntriesTrack(cc, c, Lay(u), items, PS.Item(true));
      LayStep(cc, d, v);
      LaySame(v);
      CloseStep(cc, PS.C(d), Lay(v), CloseBrace);
    }
  }

  lemma {:induction false} ConfigIfTracks(cc: CharClass, sh: PS.S, t: Items, x: P.ConfigIfEntryExpr)
    requires cc.Standard() && Tracks(cc, PS.W(sh, "if "), t) && Opens(t) && OkConfigIf(cc, x)
    ensures Tracks(cc, PS.ConfigIfShape(sh, x), ConfigIfItems(t, x)) && Shuts(ConfigIfItems(t, x))
    decreases x, 0
  {
    hide Tracks, Opens, Shuts, Free, Fresh, OkExpr, OkEntries, PS.EntriesShape, EntriesItems, PS.ExprShape, ExprItems;
    var a1, t1 := PS.ExprShape(PS.W(sh, "if "), x.ifCond), ExprItems(t, x.ifCond);
    ExprTracks(cc, PS.W(sh, "if "), t, x.ifCond);
    HeadStep(cc, a1, t1);
    var a2, t2 := PS.N(PS.I(PS.W(a1, ":"))), End(Sign(t1, Op.Colon));
    var a3, t3 := PS.EntriesShape(a2, x.items, PS.Line), EntriesItems(t2, x.items, PS.Line);
    EntriesTrack(cc, a2, t2, x.items, PS.Line);
    IndentStep(cc, a3, t3);
    EndStep(cc, PS.D(a3), t3);
    var a4, t4 := PS.N(PS.D(a3)), End(t3);
    match x.orelse {
      case NoConfigElse =>
      case ConfigElse(items) =>
        ElseStep(cc, a4, t4);
        var a5, t5 := PS.N(PS.I(PS.W(a4, "else:"))), End(Sign(Named(t4, "else"), Op.Colon));
        EntriesTrack(cc, a5, t5, items, PS.Line);
        if items == [] { NoEntries(a5, t5, PS.Line); }
        IndentStep(cc, PS.EntriesShape(a5, items, PS.Line), EntriesItems(t5, items, PS.Line));
      case ConfigElif(line, configIf) =>
        SplitStep(cc, a4, t4, line);
        ConfigIfTracks(cc, PS.V(PS.W(a4, "el"), PS.AtNode(line)), Blank(t4 + [Split]), configIf);
    }
  }

  lemma {:induction false} IfsTrack(cc: CharClass, sh: PS.S, t: Items, ifs: seq<P.Node<P.Expr>>)
    requires cc.Standard() && Tracks(cc, sh, t) && Shuts(t) && OkExprs(cc, ifs)
    ensures Tracks(cc, PS.IfsShape(sh, ifs), IfsItems(t, ifs)) && Shuts(IfsItems(t, ifs))
    decreases ifs
  {
    hide Tracks, Opens, Shuts, Fresh, OkExpr, PS.ExprShape, ExprItems, Mid;
    if ifs != [] {
      var n := |ifs| - 1;
      IfsTrack(cc, sh, t, ifs[..n]);
      var b, u := PS.IfsShape(sh, ifs[..n]), IfsItems(t, ifs[..n]);
      MiddleStep(cc, b, u, "if");
      ExprTracks(cc, PS.W(b, " if "), Mid(u, "if"), ifs[n]);
    }
  }

  /** A clause stands behind an expression or at the start of a line. */
  lemma {:induction false} ClauseTracks(cc: CharClass, sh: PS.S, t: Items, x: P.CompClause)
    requires cc.Standard() && Tracks(cc, sh, t) && (Shuts(t) || Opens(t)) && OkClause(cc, x)
    ensures Tracks(cc, PS.ClauseShape(sh, x), ClauseItems(t, x)) && Shuts(ClauseItems(t, x))
    decreases x
  {
    hide Tracks, OkExpr, OkExprs, OkNames, PS.ExprShape, ExprItems, PS.IdentifiersShape, NamesItems, PS.IfsShape;
    hide IfsItems, Last;
    ForStep(cc, sh, t);
    hide Opens, Shuts, Free, Fresh, Mid;
    var a1, t1 := PS.W(sh, " for "), Mid(t, "for");
    NamesTrack(cc, a1, t1, x.targets);
    var a2, t2 := PS.IdentifiersShape(a1, x.targets), NamesItems(t1, x.targets);
    MiddleStep(cc, a2, t2, "in");
    var a3, t3 := PS.W(a2, " in "), Mid(t2, "in");
    ExprTracks(cc, a3, t3, x.iter);
    IfsTrack(cc, PS.ExprShape(a3, x.iter), ExprItems(t3, x.iter), x.ifs);
  }

  lemma ForStep(cc: CharClass, sh: PS.S, t: Items)
    requires cc.Standard() && Tracks(cc, sh, t) && (Shuts(t) || Opens(t))
    ensures Tracks(cc, PS.W(sh, " for "), Mid(t, "for")) && Opens(Mid(t, "for")) && Shuts(Mid(t, "for"))
  {
    hide Tracks, Last;
    AsciiWord(cc, "for");
    hide IsWord;
    ShutsIsNoNote(t);
    BlankStep(cc, sh, t);
    hide Opens, Shuts, Fresh, Free;
    WordStep(cc, PS.W(sh, " "), Blank(t), "for");
    ShutsIsNoNote(Named(Blank(t), "for"));
    BlankStep(cc, PS.W(PS.W(sh, " "), "for"), Named(Blank(t), "for"));
    Joined3(cc, sh, " ", "for", " ", Mid(t, "for"));
    assert " " + "for" + " " == " for ";
  }

  lemma {:induction false} ClausesTrack(cc: CharClass, sh: PS.S, t: Items, xs: seq<P.CompClause>)
    requires cc.Standard() && Tracks(cc, sh, t) && Shuts(t) && OkClauses(cc, xs)
    ensures Tracks(cc, PS.ClausesShape(sh, xs), ClausesItems(t, xs)) && Shuts(ClausesItems(t, xs))
    decreases xs
  {
    hide Tracks, Opens, Shuts, OkClause, PS.ClauseShape, ClauseItems;
    if xs != [] {
      var n := |xs| - 1;
      ClausesTrack(cc, sh, t, xs[..n]);
      ClauseTracks(cc, PS.ClausesShape(sh, xs[..n]), ClausesItems(t, xs[..n]), xs[n]);
    }
  }

  lemma {:induction false} ListCompTracks(cc: CharClass, sh: PS.S, t: Items, elt: P.Node<P.Expr>,
                                          generators: seq<P.CompClause>)
    requires cc.Standard() && Tracks(cc, sh, t) && Opens(t) && OkExpr(cc, elt) && OkClauses(cc, generators)
    ensures var x := P.ListComp(elt, generators);
      Tracks(cc, PS.OtherKindShape(sh, x), OtherItems(t, x)) && Shuts(OtherItems(t, x))
    decreases P.ListComp(elt, generators), 1
  {
    hide Tracks, Opens, Shuts, Free, OkExpr, OkClauses, PS.ExprShape, ExprItems, PS.ClausesShape, ClausesItems;
    OpenStep(cc, sh, t, OpenBracket);
    ExprTracks(cc, PS.W(sh, "["), Sign(t, OpenBracket), elt);
    var b, u := PS.ExprShape(PS.W(sh, "["), elt), ExprItems(Sign(t, OpenBracket), elt);
    ClausesTrack(cc, b, u, generators);
    CloseStep(cc, PS.ClausesShape(b, generators), ClausesItems(u, generators), CloseBracket);
  }

  lemma {:induction false} DictCompTracks(cc: CharClass, sh: PS.S, t: Items, key: P.Node<P.Expr>,
                                          operation: P.EntryOperation, value: P.Node<P.Expr>,
                                          generators: seq<P.CompClause>)
    requires cc.Standard() && Tracks(cc, sh, t) && Opens(t) && OkExpr(cc, key) && OkExpr(cc, value)
    requires OkClauses(cc, generators)
    ensures var x := P.DictComp(key, operation, value, generators);
      Tracks(cc, PS.OtherKindShape(sh, x), OtherItems(t, x)) && Shuts(OtherItems(t, x))
    decreases P.DictComp(key, operation, value, generators), 1
  {
    hide Tracks, Opens, Shuts, Free, OkExpr, OkClauses, PS.ExprShape, ExprItems, PS.ClausesShape, ClausesItems;
    hide PS.OperationShape, OperationItems;
    OpenStep(cc, sh, t, OpenBrace);
    ExprTracks(cc, PS.W(sh, "{"), Sign(t, OpenBrace), key);
    var a1, t1 := PS.ExprShape(PS.W(sh, "{"), key), ExprItems(Sign(t, OpenBrace), key);
    OperationStep(cc, a1, t1, operation);
    var a2, t2 := PS.OperationShape(a1, operation), OperationItems(t1, operation);
    ExprTracks(cc, a2, t2, value);
    var a3, t3 := PS.ExprShape(a2, value), ExprItems(t2, value);
    ClausesTrack(cc, a3, t3, generators);
    CloseStep(cc, PS.ClausesShape(a3, generators), ClausesItems(t3, generators), CloseBrace);
  }

  // ----- schema values, checks, subscripts, parameters -----

  lemma {:induction false} SchemaExprTracks(cc: CharClass, sh: PS.S, t: Items, x: P.SchemaExpr)
    requires cc.Standard() && Tracks(cc, sh, t) && Opens(t) && OkSchemaExpr(cc, x)
    ensures Tracks(cc, PS.SchemaExprShape(sh, x), SchemaExprItems(t, x)) && Shuts(SchemaExprItems(t, x))
    decreases x
  {
    hide Tracks, Opens, Shuts, Free, Fresh, OkExpr, OkItems, OkKeywords, PS.ExprShape, ExprItems, PS.ExprsShape;
    hide ExprsItems, PS.CallArgumentsShape, CallArgumentsItems, NameItems, PS.Name, NameOk, Last;
    NameStep(cc, sh, t, x.name);
    var a1, t1 := PS.W(sh, PS.Name(x.name)), NameItems(t, x.name);
    var b, u := PS.W(a1, "("), Sign(t1, OpenParen);
    var args := x.args != [] || x.kwargs != [];
    var c := PS.CallArgumentsShape(PS.ExprsShape(b, x.args, PS.Comma), x.args != [], x.kwargs);
    var v := CallArgumentsItems(ExprsItems(u, x.args, PS.Comma), x.args != [], x.kwargs);
    if args {
      CloseStep(cc, a1, t1, OpenParen);
      FreeOpens(u);
      ItemsTrack(cc, b, u, x.args, PS.Comma);
      if x.args == [] { NoExprs(b, u, PS.Comma); }
      KwargsTrack(cc, PS.ExprsShape(b, x.args, PS.Comma), ExprsItems(u, x.args, PS.Comma), x.args != [], x.kwargs);
      CloseStep(cc, c, v, CloseParen);
    }
    var a2, t2 := if args then PS.W(c, ")") else a1, if args then Sign(v, CloseParen) else t1;
    ShutsIsNoNote(t2);
    BlankStep(cc, a2, t2);
    ExprTracks(cc, PS.W(a2, " "), Blank(t2), x.config);
  }

  lemma {:induction false} CheckTracks(cc: CharClass, sh: PS.S, t: Items, x: P.CheckExpr)
    requires cc.Standard() && Tracks(cc, sh, t) && Opens(t) && OkCheck(cc, x)
    ensures Tracks(cc, PS.CheckShape(sh, x), CheckItems(t, x)) && Shuts(CheckItems(t, x))
    decreases x
  {
    hide Tracks, Opens, Shuts, Free, Fresh, OkExpr, PS.ExprShape, ExprItems, Mid, Listed;
    ExprTracks(cc, sh, t, x.test);
    var a1, t1 := PS.ExprShape(sh, x.test), ExprItems(t, x.test);
    if x.ifCond.Some? {
      MiddleStep(cc, a1, t1, "if");
      ExprTracks(cc, PS.W(a1, " if "), Mid(t1, "if"), x.ifCond.value);
    }
    var a2 := PS.OptionShape(a1, " if ", x.ifCond);
    var t2 := match x.ifCond case Some(cond) => ExprItems(Mid(t1, "if"), cond) case None => t1;
    if x.msg.Some? {
      CommaStep(cc, a2, t2);
      ExprTracks(cc, PS.W(a2, ", "), Listed(t2), x.msg.value);
    }
  }

  lemma {:induction false} SubscriptTracks(cc: CharClass, sh: PS.S, t: Items, x: P.Subscript)
    requires cc.Standard() && Tracks(cc, sh, t) && Opens(t) && OkSubscript(cc, x)
    ensures Tracks(cc, PS.SubscriptShape(sh, x), SubscriptItems(t, x)) && Shuts(SubscriptItems(t, x))
    decreases x
  {
    hide Tracks, Opens, Shuts, Free, OkExpr, OkOption, PS.ExprShape, ExprItems, PS.BoundShape, BoundItems;
    ExprTracks(cc, sh, t, x.value);
    var a1, t1 := PS.ExprShape(sh, x.value), ExprItems(t, x.value);
    if x.hasQuestion { CloseStep(cc, a1, t1, Op.Question); }
    var a2, t2 := if x.hasQuestion then PS.W(a1, "?") else a1, if x.hasQuestion then Sign(t1, Op.Question) else t1;
    CloseStep(cc, a2, t2, OpenBracket);
    var a3, t3 := PS.W(a2, "["), Sign(t2, OpenBracket);
    if x.index.Some? {
      IndexTracks(cc, a3, t3, x.index);
      CloseStep(cc, PS.BoundShape(a3, x.index), BoundItems(t3, x.index), CloseBracket);
      BoundIsExpr(a3, t3, x.index);
    } else {
      BoundTracks(cc, a3, t3, x.lower);
      var a4, t4 := PS.BoundShape(a3, x.lower), BoundItems(t3, x.lower);
      CloseStep(cc, a4, t4, Op.Colon);
      BoundTracks(cc, PS.W(a4, ":"), Sign(t4, Op.Colon), x.upper);
      var a5, t5 := PS.BoundShape(PS.W(a4, ":"), x.upper), BoundItems(Sign(t4, Op.Colon), x.upper);
      CloseStep(cc, a5, t5, Op.Colon);
      BoundTracks(cc, PS.W(a5, ":"), Sign(t5, Op.Colon), x.step);
      CloseStep(cc, PS.BoundShape(PS.W(a5, ":"), x.step), BoundItems(Sign(t5, Op.Colon), x.step), CloseBracket);
    }
  }

  lemma BoundIsExpr(sh: PS.S, t: Items, x: Option<P.Node<P.Expr>>)
    requires x.Some?
    ensures PS.BoundShape(sh, x) == PS.ExprShape(sh, x.value) && BoundItems(t, x) == ExprItems(t, x.value)
  {
  }

  lemma {:induction false} IndexTracks(cc: CharClass, sh: PS.S, t: Items, x: Option<P.Node<P.Expr>>)
    requires cc.Standard() && Tracks(cc, sh, t) && Opens(t) && OkOption(cc, x) && x.Some?
    ensures Tracks(cc, PS.BoundShape(sh, x), BoundItems(t, x)) && Shuts(BoundItems(t, x))
    decreases x, 1
  {
    hide Tracks, Opens, Shuts, OkOption;
    OptionTracks(cc, sh, t, x);
  }

  lemma {:induction false} BoundTracks(cc: CharClass, sh: PS.S, t: Items, x: Option<P.Node<P.Expr>>)
    requires cc.Standard() && Tracks(cc, sh, t) && Opens(t) && Shuts(t) && OkOption(cc, x)
    ensures Tracks(cc, PS.BoundShape(sh, x), BoundItems(t, x)) && Shuts(BoundItems(t, x))
    decreases x, 1
  {
    hide Tracks, Opens, Shuts, OkOption;
    OptionTracks(cc, sh, t, x);
  }

  lemma {:induction false} ParameterTracks(cc: CharClass, sh: PS.S, t: Items, x: P.Arguments, i: nat)
    requires cc.Standard() && Tracks(cc, sh, t) && Opens(t) && OkArguments(cc, x) && i < PS.ParameterCount(x)
    ensures Tracks(cc, PS.ParameterShape(sh, x, i), ParameterItems(t, x, i)) && Shuts(ParameterItems(t, x, i))
    decreases x, i, 0
  {
    hide Tracks, Opens, Shuts, Free, Fresh, OkExpr, PS.ExprShape, ExprItems, NameItems, PS.Name, NameOk, Typed, Equals;
    hide AtomOk;
    NameStep(cc, sh, t, x.args[i]);
    var a1, t1 := PS.W(sh, PS.Name(x.args[i])), NameItems(t, x.args[i]);
    if x.annotations[i].Some? { AnnotationStep(cc, a1, t1, x.annotations[i].value); }
    var a2 := if x.annotations[i].Some? then PS.W(a1, ": " + x.annotations[i].value) else a1;
    var t2 := if x.annotations[i].Some? then A(Typed(t1), Given(x.annotations[i].value)) else t1;
    if x.defaults[i].Some? {
      EqualsStep(cc, a2, t2);
      ExprTracks(cc, PS.W(a2, " = "), Equals(t2), x.defaults[i].value);
    }
  }

  lemma AnnotationStep(cc: CharClass, sh: PS.S, t: Items, text: string)
    requires Tracks(cc, sh, t) && Shuts(t) && TextOk(cc, text)
    ensures var t' := A(Typed(t), Given(text));
      Tracks(cc, PS.W(sh, ": " + text), t') && Tracks(cc, PS.W(PS.W(sh, ": "), text), t') && Shuts(t')
  {
    hide Tracks, Opens, Shuts, Free, Fresh, AtomOk, Typed;
    ColonStep(cc, sh, t);
    GivenStep(cc, PS.W(sh, ": "), Typed(t), text);
    Joined(cc, sh, ": ", text, A(Typed(t), Given(text)));
  }

  lemma {:induction false} ParametersTrack(cc: CharClass, sh: PS.S, t: Items, x: P.Arguments, n: nat)
    requires cc.Standard() && Tracks(cc, sh, t) && Opens(t) && OkArguments(cc, x) && n <= PS.ParameterCount(x)
    ensures Tracks(cc, PS.ParametersShape(sh, x, n), ParametersItems(t, x, n))
    ensures n > 0 ==> Shuts(ParametersItems(t, x, n))
    decreases x, n, 1
  {
    hide Tracks, Opens, Shuts, Free, Fresh, OkArguments, PS.ParameterShape, ParameterItems, PS.ParameterCount, Listed;
    if n == 1 {
      ParameterTracks(cc, sh, t, x, 0);
    } else if n > 1 {
      ParametersTrack(cc, sh, t, x, n - 1);
      var b, u := PS.ParametersShape(sh, x, n - 1), ParametersItems(t, x, n - 1);
      CommaStep(cc, b, u);
      ParameterTracks(cc, PS.W(b, ", "), Listed(u), x, n - 1);
    }
  }

  lemma {:induction false} ComparatorsTrack(cc: CharClass, sh: PS.S, t: Items, ops: seq<P.CmpOp>,
                                            xs: seq<P.Node<P.Expr>>)
    requires cc.Standard() && Tracks(cc, sh, t) && Shuts(t) && OkExprs(cc, xs)
    ensures Tracks(cc, PS.ComparatorsShape(sh, ops, xs), ComparatorsItems(t, ops, xs))
    ensures Shuts(ComparatorsItems(t, ops, xs))
    decreases xs
  {
    hide Tracks, Opens, Shuts, OkExpr, PS.ExprShape, ExprItems, P.CmpOp.Symbol, CmpItems, Blank;
    if xs != [] {
      var n := |xs| - 1;
      ComparatorsTrack(cc, sh, t, ops, xs[..n]);
      if n < |ops| {
        var b, u := PS.ComparatorsShape(sh, ops, xs[..n]), ComparatorsItems(t, ops, xs[..n]);
        OpStep(cc, b, u, P.Cmp(ops[n]));
        ExprTracks(cc, PS.W(PS.W(PS.W(b, " "), ops[n].Symbol()), " "), Blank(CmpItems(Blank(u), ops[n])), xs[n]);
      }
    }
  }
  // ----- literals -----

  lemma NumberStep(cc: CharClass, sh: PS.S, t: Items, n: nat, suffix: Option<Suffix>)
    requires Tracks(cc, sh, t) && Opens(t)
    ensures var b := PS.W(sh, TypePrinter.IntText(n));
      Tracks(cc, if suffix.Some? then PS.W(b, suffix.value.Text()) else b, A(t, Num(n, suffix)))
    ensures Shuts(A(t, Num(n, suffix)))
  {
    hide Tracks, Numeral, Suffix.Text;
    AtomStep(cc, sh, t, Num(n, suffix));
    var text := TypePrinter.IntText(n);
    NumberTextIs(n, suffix);
    assert text + "" == text;
    if suffix.Some? { Joined(cc, sh, text, suffix.value.Text(), A(t, Num(n, suffix))); }
  }

  lemma NumberTextIs(n: nat, suffix: Option<Suffix>)
    ensures NumberText(n, suffix)
      == TypePrinter.IntText(n) + if suffix.Some? then suffix.value.Text() else ""
  {
  }

  lemma NegativeTracks(cc: CharClass, sh: PS.S, t: Items, i: int, suffix: Option<Suffix>)
    requires Tracks(cc, sh, t) && Opens(t) && i < 0
    ensures var b, t' := PS.W(sh, TypePrinter.IntText(i)), A(Sign(t, Minus), Num(-i, suffix));
      Tracks(cc, if suffix.Some? then PS.W(b, suffix.value.Text()) else b, t') && Shuts(t')
  {
    hide Tracks, Opens, Shuts, Free, TypePrinter.IntText, Suffix.Text;
    var t' := A(Sign(t, Minus), Num(-i, suffix));
    OpenStep(cc, sh, t, Minus);
    NumberStep(cc, PS.W(sh, "-"), Sign(t, Minus), -i, suffix);
    NegativeText(i);
    JoinedCells(sh, "-", TypePrinter.IntText(-i));
    if suffix.Some? {
      SameTracks(cc, PS.W(PS.W(sh, "-"), TypePrinter.IntText(-i)), PS.W(sh, TypePrinter.IntText(i)),
                 suffix.value.Text(), t');
    } else {
      Joined(cc, sh, "-", TypePrinter.IntText(-i), t');
    }
  }

  lemma NumberUnfolds(sh: PS.S, t: Items, number: P.NumberValue, suffix: Option<Suffix>)
    ensures var x, b := P.NumberLit(number, suffix), PS.W(sh, PS.NumberText(number));
      && PS.LiteralShape(sh, x) == (if suffix.Some? then PS.W(b, suffix.value.Text()) else b)
      && LiteralItems(t, x) == (
        if number.FloatValue? then A(t, Given(number.text))
        else if number.i < 0 then A(Sign(t, Minus), Num(-number.i, suffix))
        else A(t, Num(number.i, suffix)))
  {
    hide PS.NumberText, PS.W, Suffix.Text, A, Sign;
  }

  lemma NumberTracks(cc: CharClass, sh: PS.S, t: Items, number: P.NumberValue, suffix: Option<Suffix>)
    requires Tracks(cc, sh, t) && Opens(t) && (number.FloatValue? ==> suffix.None? && TextOk(cc, number.text))
    ensures var x := P.NumberLit(number, suffix);
      Tracks(cc, PS.LiteralShape(sh, x), LiteralItems(t, x)) && Shuts(LiteralItems(t, x))
  {
    hide Tracks, Opens, Shuts, Free, AtomOk, TypePrinter.IntText, Suffix.Text, PS.LiteralShape, LiteralItems;
    NumberUnfolds(sh, t, number, suffix);
    match number {
      case FloatValue(text) => GivenStep(cc, sh, t, text);
      case IntValue(i) =>
        if i < 0 { NegativeTracks(cc, sh, t, i, suffix); } else { NumberStep(cc, sh, t, i, suffix); }
    }
  }

  lemma NegativeText(i: int)
    requires i < 0
    ensures TypePrinter.IntText(i) == "-" + TypePrinter.IntText(-i)
  {
  }

  lemma StringTracks(cc: CharClass, sh: PS.S, t: Items, str: P.StringValue)
    requires Tracks(cc, sh, t) && Opens(t) && OkOther(cc, P.StringLit(str))
    ensures var x := P.StringLit(str);
      Tracks(cc, PS.LiteralShape(sh, x), LiteralItems(t, x)) && Shuts(LiteralItems(t, x))
  {
    hide Tracks, ReadableFrom, TypePrinter.Escape;
    if str.rawValue != "" {
      GivenStep(cc, sh, t, str.rawValue);
    } else {
      AtomStep(cc, sh, t, Atom.Str(str.value, str.isLongString));
      assert Quoted(str.value, str.isLongString) == PS.StringText(str);
    }
  }

  lemma ConstantUnfolds(sh: PS.S, t: Items, constant: P.NameConstant)
    ensures var x, w := P.NameConstantLit(constant), constant.Symbol();
      && PS.LiteralShape(sh, x) == PS.W(sh, w) && LiteralItems(t, x) == Named(t, w)
      && w != "" && forall k | 0 <= k < |w| :: Letter(w[k])
  {
    hide PS.W, Named;
  }

  lemma ConstantTracks(cc: CharClass, sh: PS.S, t: Items, constant: P.NameConstant)
    requires cc.Standard() && Tracks(cc, sh, t) && Opens(t)
    ensures var x := P.NameConstantLit(constant);
      Tracks(cc, PS.LiteralShape(sh, x), LiteralItems(t, x)) && Shuts(LiteralItems(t, x))
  {
    hide Tracks, Opens, Shuts, P.NameConstant.Symbol, PS.LiteralShape, LiteralItems;
    ConstantUnfolds(sh, t, constant);
    AsciiWord(cc, constant.Symbol());
    hide IsWord;
    WordStep(cc, sh, t, constant.Symbol());
  }

  lemma {:induction false} CompareTracks(cc: CharClass, sh: PS.S, t: Items, first: P.Node<P.Expr>, ops: seq<P.CmpOp>,
                                         xs: seq<P.Node<P.Expr>>)
    requires cc.Standard() && Tracks(cc, sh, t) && Opens(t) && OkExpr(cc, first) && OkExprs(cc, xs)
    ensures var x := P.Compare(first, ops, xs);
      Tracks(cc, PS.LiteralShape(sh, x), LiteralItems(t, x)) && Shuts(LiteralItems(t, x))
    decreases P.Compare(first, ops, xs), 0
  {
    hide Tracks, Opens, Shuts, OkExpr, OkExprs, PS.ExprShape, ExprItems, PS.ComparatorsShape, ComparatorsItems;
    ExprTracks(cc, sh, t, first);
    ComparatorsTrack(cc, PS.ExprShape(sh, first), ExprItems(t, first), ops, xs);
  }

  // ----- every expression -----

  lemma LiteralUnfolds(sh: PS.S, t: Items, x: P.Expr)
    requires x.Compare? || x.NumberLit? || x.StringLit? || x.NameConstantLit?
    ensures PS.OtherKindShape(sh, x) == PS.LiteralShape(sh, x) && OtherItems(t, x) == LiteralItems(t, x)
  {
    hide PS.LiteralShape, LiteralItems;
  }

  lemma {:induction false} LiteralTracks(cc: CharClass, sh: PS.S, t: Items, x: P.Expr)
    requires cc.Standard() && Tracks(cc, sh, t) && Opens(t) && OkOther(cc, x)
    requires x.Compare? || x.NumberLit? || x.StringLit? || x.NameConstantLit?
    ensures Tracks(cc, PS.OtherKindShape(sh, x), OtherItems(t, x)) && Shuts(OtherItems(t, x))
    decreases x, 1
  {
    hide Tracks, Opens, Shuts, PS.LiteralShape, LiteralItems, PS.OtherKindShape, OtherItems, AtomOk, ReadableFrom;
    LiteralUnfolds(sh, t, x);
    match x
    case Compare(first, ops, xs) => CompareTracks(cc, sh, t, first, ops, xs);
    case NumberLit(number, suffix) => NumberTracks(cc, sh, t, number, suffix);
    case StringLit(str) => StringTracks(cc, sh, t, str);
    case NameConstantLit(constant) => ConstantTracks(cc, sh, t, constant);
  }

  lemma {:induction false} ConfigIfEntryTracks(cc: CharClass, sh: PS.S, t: Items, x: P.ConfigIfEntryExpr)
    requires cc.Standard() && Tracks(cc, sh, t) && Opens(t) && OkConfigIf(cc, x)
    ensures var t' := ConfigIfItems(Blank(Named(t, "if")), x);
      Tracks(cc, PS.ConfigIfShape(sh, x), t') && Shuts(t')
    decreases x, 1
  {
    hide Tracks, Opens, Shuts, OkConfigIf, PS.ConfigIfShape, ConfigIfItems;
    IfStep(cc, sh, t);
    ConfigIfTracks(cc, sh, Blank(Named(t, "if")), x);
  }

  lemma IfStep(cc: CharClass, sh: PS.S, t: Items)
    requires cc.Standard() && Tracks(cc, sh, t) && Opens(t)
    ensures Tracks(cc, PS.W(sh, "if "), Blank(Named(t, "if"))) && Opens(Blank(Named(t, "if")))
  {
    LeadStep(cc, sh, t, "if");
    assert "if" + " " == "if ";
  }

  /** A word that something follows. */
  lemma LeadStep(cc: CharClass, sh: PS.S, t: Items, w: string)
    requires cc.Standard() && Tracks(cc, sh, t) && Opens(t) && w != "" && forall k | 0 <= k < |w| :: Letter(w[k])
    ensures var t' := Blank(Named(t, w));
      && Tracks(cc, PS.W(sh, w + " "), t') && Tracks(cc, PS.W(PS.W(sh, w), " "), t')
      && Fresh(t') && Free(t') && Opens(t') && Shuts(t')
  {
    hide Tracks, Opens, Shuts, Free, Fresh, Last;
    AsciiWord(cc, w);
    hide IsWord;
    WordStep(cc, sh, t, w);
    ShutsIsNoNote(Named(t, w));
    BlankStep(cc, PS.W(sh, w), Named(t, w));
    Joined(cc, sh, w, " ", Blank(Named(t, w)));
  }

  lemma {:induction false} OtherTracks(cc: CharClass, sh: PS.S, t: Items, x: P.Expr)
    requires cc.Standard() && Tracks(cc, sh, t) && Opens(t) && OkOther(cc, x)
    ensures Tracks(cc, PS.OtherKindShape(sh, x), OtherItems(t, x)) && Shuts(OtherItems(t, x))
    decreases x, 2
  {
    hide Tracks, Opens, Shuts, OkExpr, OkExprs, OkClauses, OkConfigIf, OkClause, OkSchemaExpr, OkEntries, OkCheck;
    hide OkLambda, OkSubscript, OkKeyword, OkArguments, AtomOk, ReadableFrom;
    hide PS.ConfigIfShape, PS.ClauseShape, PS.SchemaExprShape, PS.ConfigShape, PS.CheckShape, PS.LambdaShape;
    hide PS.SubscriptShape, PS.KeywordShape, PS.ArgumentsShape, PS.LiteralShape, PS.ClausesShape, PS.OperationShape;
    hide ConfigIfItems, ClauseItems, SchemaExprItems, ConfigItems, CheckItems, LambdaItems, SubscriptItems;
    hide KeywordItems, ArgumentsItems, LiteralItems, ClausesItems, OperationItems, PS.ExprShape, ExprItems;
    match x
    case ListComp(elt, generators) => ListCompTracks(cc, sh, t, elt, generators);
    case DictComp(key, operation, value, generators) => DictCompTracks(cc, sh, t, key, operation, value, generators);
    case ConfigIfEntry(configIf) => ConfigIfEntryTracks(cc, sh, t, configIf);
    case Comp(clause) => ClauseTracks(cc, sh, t, clause);
    case Schema(schema) => SchemaExprTracks(cc, sh, t, schema);
    case Config(items) => ConfigTracks(cc, sh, t, items);
    case Check(check) => CheckTracks(cc, sh, t, check);
    case Lambda(lambda) => LambdaTracks(cc, sh, t, lambda);
    case Sub(subscript) => SubscriptTracks(cc, sh, t, subscript);
    case KeywordArg(keyword) => KeywordTracks(cc, sh, t, keyword);
    case Args(arguments) => ArgumentsTrack(cc, sh, t, arguments);
    case Compare(_, _, _) => LiteralTracks(cc, sh, t, x);
    case NumberLit(_, _) => LiteralTracks(cc, sh, t, x);
    case StringLit(_) => LiteralTracks(cc, sh, t, x);
    case NameConstantLit(_) => LiteralTracks(cc, sh, t, x);
    case _ => assert false;
  }

  lemma {:induction false} ArgumentsTrack(cc: CharClass, sh: PS.S, t: Items, x: P.Arguments)
    requires cc.Standard() && Tracks(cc, sh, t) && Opens(t) && OkArguments(cc, x)
    ensures Tracks(cc, PS.ArgumentsShape(sh, x), ArgumentsItems(t, x))
    ensures PS.ParameterCount(x) > 0 || Shuts(t) ==> Shuts(ArgumentsItems(t, x))
    decreases x, PS.ParameterCount(x), 2
  {
    hide Tracks, Opens, Shuts, OkArguments, PS.ParameterCount;
    ParametersTrack(cc, sh, t, x, PS.ParameterCount(x));
    hide PS.ParameterShape, ParameterItems;
  }

  lemma OtherUnfolds(sh: PS.S, t: Items, x: P.Expr)
    requires !x.Ident? && !x.Unary? && !x.Binary? && !x.IfExpr? && !x.Selector? && !x.Call? && !x.Paren? && !x.Quant?
    requires !x.ListExpr? && !x.ListIfItem?
    ensures PS.ExprKindShape(sh, x) == PS.OtherKindShape(sh, x) && KindItems(t, x) == OtherItems(t, x)
  {
    hide PS.OtherKindShape, OtherItems;
  }

  lemma {:induction false} ListIfItemTracks(cc: CharClass, sh: PS.S, t: Items, x: P.ListIfItemExpr)
    requires cc.Standard() && Tracks(cc, sh, t) && Opens(t) && OkListIf(cc, x)
    ensures var t' := ListIfItems(Blank(Named(t, "if")), x);
      Tracks(cc, PS.ListIfShape(sh, x), t') && Shuts(t')
    decreases x, 1
  {
    hide Tracks, Opens, Shuts, OkListIf, PS.ListIfShape, ListIfItems;
    IfStep(cc, sh, t);
    ListIfTracks(cc, sh, Blank(Named(t, "if")), x);
  }

  /** Every expression, whatever was written before. */
  lemma {:induction false} KindTracks(cc: CharClass, sh: PS.S, t: Items, x: P.Expr)
    requires cc.Standard() && Tracks(cc, sh, t) && Opens(t) && OkKind(cc, x)
    ensures Tracks(cc, PS.ExprKindShape(sh, x), KindItems(t, x)) && Shuts(KindItems(t, x))
    decreases x, 3
  {
    hide Tracks, Opens, Shuts, OkExpr, OkCall, OkQuant, OkItems, OkListIf, OkOther, NameOk, FieldsOk;
    hide PS.ExprShape, ExprItems, PS.OtherKindShape, OtherItems, PS.CallShape, CallItems, PS.QuantShape, QuantItems;
    hide PS.ListShape, ListItems, PS.ListIfShape, ListIfItems, NameItems, FieldsItems, OpItems, UnaryItems, PS.Name;
    match x {
      case Ident(identifier) => NameStep(cc, sh, t, identifier);
      case Unary(op, operand) => UnaryTracks(cc, sh, t, op, operand);
      case Binary(left, op, right) => BinaryTracks(cc, sh, t, left, op, right);
      case IfExpr(body, cond, orelse) => IfExprTracks(cc, sh, t, body, cond, orelse);
      case Selector(value, attr, hasQuestion) => SelectorTracks(cc, sh, t, value, attr, hasQuestion);
      case Call(call) => CallTracks(cc, sh, t, call);
      case Paren(expr) => ParenTracks(cc, sh, t, expr);
      case Quant(quant) => QuantTracks(cc, sh, t, quant);
      case ListExpr(elts) => ListTracks(cc, sh, t, elts);
      case ListIfItem(listIf) => ListIfItemTracks(cc, sh, t, listIf);
      case _ =>
        OtherUnfolds(sh, t, x);
        OtherTracks(cc, sh, t, x);
    }
  }

  // ----- statements -----

  lemma ArrowStep(cc: CharClass, sh: PS.S, t: Items, text: string)
    requires Tracks(cc, sh, t) && Shuts(t) && TextOk(cc, text)
    ensures var t' := A(Blank(Sign(Sign(Blank(t), Minus), Op.Gt)), Given(text));
      Tracks(cc, PS.W(PS.W(PS.W(PS.W(sh, " "), "->"), " "), text), t') && Shuts(t')
  {
    hide Tracks, AtomOk, Last;
    ShutsIsNoNote(t);
    BlankStep(cc, sh, t);
    var b, u := PS.W(sh, " "), Blank(t);
    hide Shuts, Opens, Fresh, Free;
    OpenStep(cc, b, u, Minus);
    SignIsLast(u, Minus);
    GtStep(cc, PS.W(b, "-"), Sign(u, Minus));
    Joined(cc, b, "-", ">", Sign(Sign(u, Minus), Op.Gt));
    assert "-" + ">" == "->";
    SignIsSolid(Sign(u, Minus), Op.Gt);
    BlankStep(cc, PS.W(b, "->"), Sign(Sign(u, Minus), Op.Gt));
    GivenStep(cc, PS.W(PS.W(b, "->"), " "), Blank(Sign(Sign(u, Minus), Op.Gt)), text);
  }

  lemma SignIsLast(t: Items, op: Op)
    ensures Last(Sign(t, op)) == Some(Punct(op))
  {
  }

  lemma GtStep(cc: CharClass, sh: PS.S, t: Items)
    requires Tracks(cc, sh, t) && Last(t) == Some(Punct(Minus))
    ensures Tracks(cc, PS.W(sh, ">"), Sign(t, Op.Gt))
  {
    hide Tracks, Last;
    AtomStep(cc, sh, t, Punct(Op.Gt));
  }

  lemma {:induction false} LambdaHeadTracks(cc: CharClass, sh: PS.S, t: Items, x: P.LambdaExpr)
    requires cc.Standard() && Tracks(cc, sh, t) && Opens(t) && OkLambda(cc, x)
    ensures Tracks(cc, PS.LambdaHeadShape(sh, x), LambdaHeadItems(t, x)) && Shuts(LambdaHeadItems(t, x))
    decreases x, 0
  {
    hide Tracks, Opens, Shuts, Fresh, Free, AtomOk, OkArguments, OkStmts, PS.ArgumentsShape, ArgumentsItems, Last;
    AsciiWord(cc, "lambda");
    hide IsWord;
    WordStep(cc, sh, t, "lambda");
    var a1, t1 := PS.W(sh, "lambda"), Named(t, "lambda");
    if x.args.Some? {
      ShutsIsNoNote(t1);
      BlankStep(cc, a1, t1);
      ArgumentsTrack(cc, PS.W(a1, " "), Blank(t1), x.args.value);
    }
    if x.returnType.Some? {
      ArrowStep(cc, match x.args case Some(args) => PS.ArgumentsShape(PS.W(a1, " "), args) case None => a1,
                match x.args case Some(args) => ArgumentsItems(Blank(t1), args) case None => t1, x.returnType.value);
    }
  }

  lemma {:induction false} LambdaTracks(cc: CharClass, sh: PS.S, t: Items, x: P.LambdaExpr)
    requires cc.Standard() && Tracks(cc, sh, t) && Opens(t) && OkLambda(cc, x)
    ensures Tracks(cc, PS.LambdaShape(sh, x), LambdaItems(t, x)) && Shuts(LambdaItems(t, x))
    decreases x, 1
  {
    hide Tracks, Opens, Shuts, Fresh, Free, OkStmts, PS.StmtsShape, StmtsItems, PS.LambdaHeadShape, LambdaHeadItems;
    LambdaHeadTracks(cc, sh, t, x);
    var a1, t1 := PS.LambdaHeadShape(sh, x), LambdaHeadItems(t, x);
    BraceStep(cc, a1, t1);
    var a2, t2 := PS.W(PS.W(a1, " "), "{"), Sign(Blank(t1), OpenBrace);
    EndStep(cc, a2, t2);
    IndentStep(cc, PS.B(a2), End(t2));
    var a3, t3 := PS.I(PS.B(a2)), End(t2);
    LambdaBody(cc, x);
    StmtsTrack(cc, a3, t3, x.body);
    var a4, t4 := PS.StmtsShape(a3, x.body), StmtsItems(t3, x.body);
    IndentStep(cc, a4, t4);
    EndStep(cc, PS.D(a4), t4);
    CloseStep(cc, PS.N(PS.D(a4)), End(t4), CloseBrace);
  }

  lemma LambdaBody(cc: CharClass, x: P.LambdaExpr)
    requires OkLambda(cc, x)
    ensures OkStmts(cc, x.body)
  {
  }

  lemma {:induction false} StmtsTrack(cc: CharClass, sh: PS.S, t: Items, stmts: seq<P.Node<P.Stmt>>)
    requires cc.Standard() && Tracks(cc, sh, t) && Fresh(t) && OkStmts(cc, stmts)
    ensures Tracks(cc, PS.StmtsShape(sh, stmts), StmtsItems(t, stmts)) && Fresh(StmtsItems(t, stmts))
    decreases stmts
  {
    hide Tracks, Fresh, OkStmt, PS.StmtNodeShape, StmtNodeItems;
    if stmts != [] {
      var n := |stmts| - 1;
      StmtsTrack(cc, sh, t, stmts[..n]);
      StmtNodeTracks(cc, PS.StmtsShape(sh, stmts[..n]), StmtsItems(t, stmts[..n]), stmts[n]);
    }
  }

  lemma {:induction false} StmtNodeTracks(cc: CharClass, sh: PS.S, t: Items, stmt: P.Node<P.Stmt>)
    requires cc.Standard() && Tracks(cc, sh, t) && Fresh(t) && OkStmt(cc, stmt)
    ensures Tracks(cc, PS.StmtNodeShape(sh, stmt), StmtNodeItems(t, stmt)) && Fresh(StmtNodeItems(t, stmt))
    decreases stmt
  {
    hide Tracks, Fresh, Opens, Shuts, Free, OkStmt, PS.StmtShape, StmtItems;
    LayStep(cc, sh, t);
    LaySame(t);
    LayStep(cc, PS.F(sh), Lay(t));
    LaySame(Lay(t));
    StmtTracks(cc, PS.V(PS.F(sh), PS.AtStmt(stmt)), Lay(Lay(t)), stmt);
  }
  // ----- the forms of statements -----

  lemma {:induction false} StmtTracks(cc: CharClass, sh: PS.S, t: Items, stmt: P.Node<P.Stmt>)
    requires cc.Standard() && Tracks(cc, sh, t) && Fresh(t) && OkStmt(cc, stmt)
    ensures Tracks(cc, PS.StmtShape(sh, stmt.node), StmtItems(t, stmt.node)) && Fresh(StmtItems(t, stmt.node))
    decreases stmt.node, 1
  {
    hide Tracks, Opens, Shuts, Free, Fresh, NameOk, AtomOk, OkItems, OkSchemaExpr, OkNames, OkExpr, OkCheck, OkIf;
    hide OkAttr, OkSchema, OkRule, PS.ExprsShape, ExprsItems, PS.SchemaExprShape, SchemaExprItems, PS.ExprShape;
    hide ExprItems;
    hide PS.CheckShape, CheckItems, PS.IfStmtShape, IfItems, PS.SchemaAttrShape, AttrItems, PS.SchemaStmtShape;
    hide SchemaItems, PS.RuleStmtShape, RuleItems, PS.TargetsShape, TargetsItems, P.AugOp.Symbol, AugSign, PS.Name;
    hide NameItems, Blank, Named, Typed, Equals, Mid, IsWord;
    FreeOpens(t);
    match stmt.node {
      case TypeAlias(name, value) => AliasTracks(cc, sh, t, name, value);
      case ExprStmt(exprs) =>
        ItemsTrack(cc, sh, t, exprs, PS.Comma);
        EndStep(cc, PS.ExprsShape(sh, exprs, PS.Comma), ExprsItems(t, exprs, PS.Comma));
      case Unification(target, value) =>
        NameStep(cc, sh, t, target);
        ColonStep(cc, PS.W(sh, PS.Name(target)), NameItems(t, target));
        var b, u := PS.W(PS.W(sh, PS.Name(target)), ": "), Typed(NameItems(t, target));
        SchemaExprTracks(cc, b, u, value);
        EndStep(cc, PS.SchemaExprShape(b, value), SchemaExprItems(u, value));
      case Assign(targets, ty, value) =>
        TargetsTrack(cc, sh, t, targets, ty);
        var b, u := PS.TargetsShape(sh, targets, ty), TargetsItems(t, targets, ty);
        ExprTracks(cc, b, u, value);
        EndStep(cc, PS.ExprShape(b, value), ExprItems(u, value));
        EndStep(cc, PS.B(PS.ExprShape(b, value)), End(ExprItems(u, value)));
      case AugAssign(target, op, value) =>
        NameStep(cc, sh, t, target);
        AugStep(cc, PS.W(sh, PS.Name(target)), NameItems(t, target), op);
        var b := PS.W(PS.W(PS.W(PS.W(sh, PS.Name(target)), " "), op.Symbol()), " ");
        var u := Blank(Sign(Blank(NameItems(t, target)), AugSign(op)));
        ExprTracks(cc, b, u, value);
        EndStep(cc, PS.ExprShape(b, value), ExprItems(u, value));
      case Assert(check) =>
        LeadStep(cc, sh, t, "assert");
        assert "assert" + " " == "assert ";
        CheckTracks(cc, PS.W(sh, "assert "), Blank(Named(t, "assert")), check);
        EndStep(cc, PS.CheckShape(PS.W(sh, "assert "), check), CheckItems(Blank(Named(t, "assert")), check));
      case If(ifStmt) =>
        IfStep(cc, sh, t);
        IfTracks(cc, sh, Blank(Named(t, "if")), ifStmt);
      case Import(path, asname) => ImportTracks(cc, sh, t, path, asname);
      case Attr(attr) => AttrTracks(cc, sh, t, attr);
      case SchemaDef(schema) => SchemaTracks(cc, sh, t, schema);
      case RuleDef(rule) => RuleTracks(cc, sh, t, rule);
    }
  }

  lemma AugStep(cc: CharClass, sh: PS.S, t: Items, op: P.AugOp)
    requires Tracks(cc, sh, t) && Shuts(t)
    ensures var t' := Blank(Sign(Blank(t), AugSign(op)));
      Tracks(cc, PS.W(PS.W(PS.W(sh, " "), op.Symbol()), " "), t') && Opens(t')
  {
    hide Tracks, Opens, Shuts, Free, Fresh;
    AugText(op);
    hide Spelling, P.AugOp.Symbol, AugSign;
    SignStep(cc, sh, t, AugSign(op));
  }

  lemma AugText(op: P.AugOp)
    ensures Spelling(AugSign(op)) == op.Symbol() && AugSign(op) != Dollar
  {
  }

  lemma AliasTracks(cc: CharClass, sh: PS.S, t: Items, name: P.Identifier, value: string)
    requires cc.Standard() && Tracks(cc, sh, t) && Opens(t) && NameOk(cc, name) && TextOk(cc, value)
    ensures var x := P.TypeAlias(name, value);
      Tracks(cc, PS.StmtShape(sh, x), StmtItems(t, x)) && Fresh(StmtItems(t, x))
  {
    hide Tracks, Opens, Shuts, Free, Fresh, NameOk, AtomOk, PS.Name, NameItems, Blank, Named, Equals;
    LeadStep(cc, sh, t, "type");
    var a1, t1 := PS.W(PS.W(sh, "type"), " "), Blank(Named(t, "type"));
    NameStep(cc, a1, t1, name);
    var a2, t2 := PS.W(a1, PS.Name(name)), NameItems(t1, name);
    EqualsStep(cc, a2, t2);
    GivenStep(cc, PS.W(a2, " = "), Equals(t2), value);
    EndStep(cc, PS.W(PS.W(a2, " = "), value), A(Equals(t2), Given(value)));
  }

  lemma ImportTracks(cc: CharClass, sh: PS.S, t: Items, path: string, asname: Option<string>)
    requires cc.Standard() && Tracks(cc, sh, t) && Opens(t) && TextOk(cc, path)
    requires asname.Some? ==> IsWord(cc, asname.value)
    ensures var x := P.Stmt.Import(path, asname);
      Tracks(cc, PS.StmtShape(sh, x), StmtItems(t, x)) && Fresh(StmtItems(t, x))
  {
    hide Tracks, Opens, Shuts, Free, Fresh, AtomOk, Blank, Named, Mid, IsWord;
    LeadStep(cc, sh, t, "import");
    assert "import" + " " == "import ";
    var a1, t1 := PS.W(sh, "import "), Blank(Named(t, "import"));
    GivenStep(cc, a1, t1, path);
    var a2, t2 := PS.W(a1, path), A(t1, Given(path));
    if asname.Some? {
      MiddleStep(cc, a2, t2, "as");
      WordStep(cc, PS.W(a2, " as "), Mid(t2, "as"), asname.value);
      EndStep(cc, PS.W(PS.W(a2, " as "), asname.value), Named(Mid(t2, "as"), asname.value));
    } else {
      EndStep(cc, a2, t2);
    }
  }

  lemma TargetTracks(cc: CharClass, sh: PS.S, t: Items, target: P.Identifier, ty: Option<TypePrinter.Type>)
    requires Tracks(cc, sh, t) && Opens(t) && NameOk(cc, target)
    requires ty.Some? ==> TextOk(cc, TypePrinter.Print(ty.value))
    ensures Tracks(cc, PS.TargetShape(sh, target, ty), TargetItems(t, target, ty)) && Opens(TargetItems(t, target, ty))
  {
    hide Tracks, Opens, Shuts, Free, Fresh, NameOk, AtomOk, PS.Name, NameItems, Typed, Equals, TypePrinter.Print;
    NameStep(cc, sh, t, target);
    var a1, t1 := PS.W(sh, PS.Name(target)), NameItems(t, target);
    if ty.Some? { AnnotationStep(cc, a1, t1, TypePrinter.Print(ty.value)); }
    var a2 := if ty.Some? then PS.W(PS.W(a1, ": "), TypePrinter.Print(ty.value)) else a1;
    var t2 := if ty.Some? then A(Typed(t1), Given(TypePrinter.Print(ty.value))) else t1;
    EqualsStep(cc, a2, t2);
  }

  lemma {:induction false} TargetsTrack(cc: CharClass, sh: PS.S, t: Items, targets: seq<P.Identifier>,
                                        ty: Option<TypePrinter.Type>)
    requires Tracks(cc, sh, t) && Opens(t) && OkNames(cc, targets)
    requires ty.Some? ==> TextOk(cc, TypePrinter.Print(ty.value))
    ensures Tracks(cc, PS.TargetsShape(sh, targets, ty), TargetsItems(t, targets, ty))
    ensures Opens(TargetsItems(t, targets, ty))
    decreases targets
  {
    hide Tracks, Opens, NameOk, AtomOk, PS.TargetShape, TargetItems, TypePrinter.Print;
    if targets != [] {
      var n := |targets| - 1;
      TargetsTrack(cc, sh, t, targets[..n], ty);
      TargetTracks(cc, PS.TargetsShape(sh, targets[..n], ty), TargetsItems(t, targets[..n], ty), targets[n],
                   if n == 0 then ty else None);
    }
  }

  /** Behind `if` or `elif`. */
  lemma {:induction false} IfTracks(cc: CharClass, sh: PS.S, t: Items, s: P.IfStmt)
    requires cc.Standard() && Tracks(cc, PS.W(sh, "if "), t) && Opens(t) && OkIf(cc, s)
    ensures Tracks(cc, PS.IfStmtShape(sh, s), IfItems(t, s)) && Fresh(IfItems(t, s))
    decreases s
  {
    hide Tracks, Opens, Shuts, Free, Fresh, OkExpr, OkStmt, PS.StmtsShape, StmtsItems, PS.ExprShape, ExprItems;
    var a1, t1 := PS.ExprShape(PS.W(sh, "if "), s.cond), ExprItems(t, s.cond);
    ExprTracks(cc, PS.W(sh, "if "), t, s.cond);
    HeadStep(cc, a1, t1);
    var a2, t2 := PS.I(PS.B(PS.W(a1, ":"))), End(Sign(t1, Op.Colon));
    StmtsTrack(cc, a2, t2, s.body);
    var a3, t3 := PS.StmtsShape(a2, s.body), StmtsItems(t2, s.body);
    IndentStep(cc, a3, t3);
    var a4 := PS.D(a3);
    if s.orelse == [] {
      EndStep(cc, a4, t3);
    } else {
      LayStep(cc, a4, t3);
      LaySame(t3);
      FreeOpens(Lay(t3));
      if s.orelse[0].node.If? {
        OkInner(cc, s);
        ElifStep(cc, PS.F(a4), Lay(t3));
        IfTracks(cc, PS.W(PS.F(a4), "el"), Blank(Named(Lay(t3), "elif")), s.orelse[0].node.ifStmt);
      } else {
        ElseStep(cc, PS.F(a4), Lay(t3));
        var a5, t5 := PS.I(PS.B(PS.W(PS.F(a4), "else:"))), End(Sign(Named(Lay(t3), "else"), Op.Colon));
        StmtsTrack(cc, a5, t5, s.orelse);
        IndentStep(cc, PS.StmtsShape(a5, s.orelse), StmtsItems(t5, s.orelse));
      }
    }
  }

  lemma OkInner(cc: CharClass, s: P.IfStmt)
    requires OkIf(cc, s) && s.orelse != [] && s.orelse[0].node.If?
    ensures OkIf(cc, s.orelse[0].node.ifStmt)
  {
    assert OkStmt(cc, s.orelse[0]);
  }

  lemma ElifStep(cc: CharClass, sh: PS.S, t: Items)
    requires cc.Standard() && Tracks(cc, sh, t) && Opens(t)
    ensures Tracks(cc, PS.W(PS.W(sh, "el"), "if "), Blank(Named(t, "elif"))) && Opens(Blank(Named(t, "elif")))
  {
    hide Tracks, Opens, Shuts, Free, Fresh;
    LeadStep(cc, sh, t, "elif");
    Joined(cc, sh, "el", "if ", Blank(Named(t, "elif")));
    assert "elif" + " " == "el" + "if ";
  }

  lemma {:induction false} DecoratorsTrack(cc: CharClass, sh: PS.S, t: Items, xs: seq<P.CallExpr>)
    requires cc.Standard() && Tracks(cc, sh, t) && Fresh(t) && OkCalls(cc, xs)
    ensures Tracks(cc, PS.DecoratorsShape(sh, xs), DecoratorsItems(t, xs))
    decreases xs, 0
  {
    hide Tracks, Opens, Shuts, Free, Fresh, OkCall, PS.CallShape, CallItems;
    if xs != [] {
      var n := |xs| - 1;
      DecoratorsTrack(cc, sh, t, xs[..n]);
      var b, u := PS.DecoratorsShape(sh, xs[..n]), DecoratorsItems(t, xs[..n]);
      EndStep(cc, b, u);
      var c, v := if n == 0 then sh else PS.N(b), if n == 0 then t else End(u);
      FreeOpens(v);
      OpenStep(cc, c, v, At);
      CallTracks(cc, PS.W(c, "@"), Sign(v, At), xs[n]);
    }
  }

  lemma {:induction false} DecoratedTracks(cc: CharClass, sh: PS.S, t: Items, xs: seq<P.CallExpr>)
    requires cc.Standard() && Tracks(cc, sh, t) && Fresh(t) && OkCalls(cc, xs)
    ensures Tracks(cc, PS.DecoratedShape(sh, xs), DecoratedItems(t, xs)) && Fresh(DecoratedItems(t, xs))
    decreases xs, 1
  {
    hide Tracks, Opens, Shuts, Free, Fresh, OkCalls, PS.DecoratorsShape, DecoratorsItems;
    if xs != [] {
      DecoratorsTrack(cc, sh, t, xs);
      EndStep(cc, PS.DecoratorsShape(sh, xs), DecoratorsItems(t, xs));
    }
  }

  lemma BinOrAugStep(cc: CharClass, sh: PS.S, t: Items, op: P.BinOrAugOp)
    requires cc.Standard() && Tracks(cc, sh, t) && Shuts(t)
    ensures var t' := Blank(BinOrAugItems(Blank(t), op));
      && Tracks(cc, PS.W(PS.W(PS.W(sh, " "), op.Symbol()), " "), t') && Opens(t') && Shuts(t')
  {
    hide Tracks, Opens, Shuts, Free, Fresh, Last, P.BinOp.Symbol, BinItems;
    ShutsIsNoNote(t);
    BlankStep(cc, sh, t);
    match op {
      case BinOrAugBin(bin) => BinStep(cc, PS.W(sh, " "), Blank(t), bin);
      case Aug(aug) =>
        AugText(aug);
        SignTracks(cc, PS.W(sh, " "), Blank(t), AugSign(aug));
    }
    assert Solid(BinOrAugItems(Blank(t), op));
    BlankStep(cc, PS.W(PS.W(sh, " "), op.Symbol()), BinOrAugItems(Blank(t), op));
  }

  lemma {:induction false} AttrTypeTracks(cc: CharClass, sh: PS.S, t: Items, x: P.SchemaAttr)
    requires cc.Standard() && Tracks(cc, sh, t) && Fresh(t) && OkAttr(cc, x)
    ensures Tracks(cc, PS.AttrTypeShape(sh, x), AttrTypeItems(t, x)) && Shuts(AttrTypeItems(t, x))
    decreases x, 0
  {
    hide Tracks, Opens, Shuts, Free, Fresh, OkCalls, OkExpr, IsWord, AtomOk, PS.DecoratedShape, DecoratedItems, Typed;
    DecoratedTracks(cc, sh, t, x.decorators);
    var a1, t1 := PS.DecoratedShape(sh, x.decorators), DecoratedItems(t, x.decorators);
    FreeOpens(t1);
    WordStep(cc, a1, t1, x.name);
    var a2, t2 := PS.W(a1, x.name), Named(t1, x.name);
    if x.isOptional { CloseStep(cc, a2, t2, Op.Question); }
    var a3, t3 := if x.isOptional then PS.W(a2, "?") else a2, if x.isOptional then Sign(t2, Op.Question) else t2;
    AnnotationStep(cc, a3, t3, x.typeStr);
  }

  lemma {:induction false} AttrTracks(cc: CharClass, sh: PS.S, t: Items, x: P.SchemaAttr)
    requires cc.Standard() && Tracks(cc, sh, t) && Fresh(t) && OkAttr(cc, x)
    ensures Tracks(cc, PS.SchemaAttrShape(sh, x), AttrItems(t, x)) && Fresh(AttrItems(t, x))
    decreases x, 1
  {
    hide Tracks, Opens, Shuts, Free, Fresh, OkCalls, OkExpr, IsWord, AtomOk, PS.AttrTypeShape, AttrTypeItems;
    hide PS.ExprShape, ExprItems, P.BinOrAugOp.Symbol, BinOrAugItems, Blank;
    AttrTypeTracks(cc, sh, t, x);
    var a1, t1 := PS.AttrTypeShape(sh, x), AttrTypeItems(t, x);
    if x.op.Some? { BinOrAugStep(cc, a1, t1, x.op.value); }
    var a2 := if x.op.Some? then PS.W(PS.W(PS.W(a1, " "), x.op.value.Symbol()), " ") else a1;
    var t2 := if x.op.Some? then Blank(BinOrAugItems(Blank(t1), x.op.value)) else t1;
    if x.value.Some? { ExprTracks(cc, a2, t2, x.value.value); }
    EndStep(cc, match x.value case Some(value) => PS.ExprShape(a2, value) case None => a2,
            match x.value case Some(value) => ExprItems(t2, value) case None => t2);
  }
  // ----- schemas and rules -----

  lemma {:induction false} BracketedTracks(cc: CharClass, sh: PS.S, t: Items, args: Option<P.Arguments>)
    requires cc.Standard() && Tracks(cc, sh, t) && Shuts(t) && (args.Some? ==> OkArguments(cc, args.value))
    ensures Tracks(cc, PS.BracketedArgumentsShape(sh, args), BracketedItems(t, args)) && Shuts(BracketedItems(t, args))
    decreases args
  {
    hide Tracks, Opens, Shuts, Free, OkArguments, PS.ArgumentsShape, ArgumentsItems;
    if args.Some? {
      CloseStep(cc, sh, t, OpenBracket);
      var b, u := PS.W(sh, "["), Sign(t, OpenBracket);
      ArgumentsTrack(cc, b, u, args.value);
      CloseStep(cc, PS.ArgumentsShape(b, args.value), ArgumentsItems(u, args.value), CloseBracket);
    }
  }

  /** Names in brackets. */
  lemma ParentsTrack(cc: CharClass, sh: PS.S, t: Items, xs: seq<P.Identifier>)
    requires Tracks(cc, sh, t) && Shuts(t) && OkNames(cc, xs)
    ensures var t' := Sign(NamesItems(Sign(t, OpenParen), xs), CloseParen);
      Tracks(cc, PS.W(PS.IdentifiersShape(PS.W(sh, "("), xs), ")"), t') && Shuts(t')
  {
    hide Tracks, Opens, Shuts, Free, OkNames, PS.IdentifiersShape, NamesItems;
    CloseStep(cc, sh, t, OpenParen);
    NamesTrack(cc, PS.W(sh, "("), Sign(t, OpenParen), xs);
    CloseStep(cc, PS.IdentifiersShape(PS.W(sh, "("), xs), NamesItems(Sign(t, OpenParen), xs), CloseParen);
  }

  lemma ParentTracks(cc: CharClass, sh: PS.S, t: Items, x: P.Identifier)
    requires Tracks(cc, sh, t) && Shuts(t) && NameOk(cc, x)
    ensures var t' := Sign(NameItems(Sign(t, OpenParen), x), CloseParen);
      Tracks(cc, PS.W(PS.W(PS.W(sh, "("), PS.Name(x)), ")"), t') && Shuts(t')
  {
    hide Tracks, Opens, Shuts, Free, NameOk, PS.Name, NameItems;
    CloseStep(cc, sh, t, OpenParen);
    NameStep(cc, PS.W(sh, "("), Sign(t, OpenParen), x);
    CloseStep(cc, PS.W(PS.W(sh, "("), PS.Name(x)), NameItems(Sign(t, OpenParen), x), CloseParen);
  }

  lemma HostTracks(cc: CharClass, sh: PS.S, t: Items, x: Option<P.Identifier>)
    requires cc.Standard() && Tracks(cc, sh, t) && Shuts(t) && (x.Some? ==> NameOk(cc, x.value))
    ensures var t' := if x.Some? then NameItems(Mid(t, "for"), x.value) else t;
      Tracks(cc, if x.Some? then PS.W(PS.W(sh, " for "), PS.Name(x.value)) else sh, t') && Shuts(t')
  {
    hide Tracks, Opens, Shuts, Free, Fresh, NameOk, PS.Name, NameItems, Mid;
    if x.Some? {
      MiddleStep(cc, sh, t, "for");
      NameStep(cc, PS.W(sh, " for "), Mid(t, "for"), x.value);
    }
  }

  lemma KindWord(x: P.SchemaStmt)
    ensures var kind := if x.isMixin then "mixin" else if x.isProtocol then "protocol" else "schema";
      && kind + " " == (if x.isMixin then "mixin " else if x.isProtocol then "protocol " else "schema ")
      && kind != "" && forall k | 0 <= k < |kind| :: Letter(kind[k])
  {
    assert "mixin" + " " == "mixin " && "protocol" + " " == "protocol " && "schema" + " " == "schema ";
  }

  lemma {:induction false} SchemaHeadTracks(cc: CharClass, sh: PS.S, t: Items, x: P.SchemaStmt)
    requires cc.Standard() && Tracks(cc, sh, t) && Fresh(t) && OkSchema(cc, x)
    ensures Tracks(cc, PS.SchemaHeadShape(sh, x), SchemaHeadItems(t, x)) && Shuts(SchemaHeadItems(t, x))
    decreases x, 0
  {
    hide Tracks, Opens, Shuts, Free, Fresh, OkCalls, OkArguments, OkNames, OkIndex, OkStmts, OkChecks, NameOk, AtomOk;
    hide IsWord, PS.DecoratedShape, DecoratedItems, PS.BracketedArgumentsShape, BracketedItems, PS.Name, NameItems, Mid;
    hide Blank, Named;
    var kind := if x.isMixin then "mixin" else if x.isProtocol then "protocol" else "schema";
    KindWord(x);
    DecoratedTracks(cc, sh, t, x.decorators);
    var a1, t1 := PS.DecoratedShape(sh, x.decorators), DecoratedItems(t, x.decorators);
    FreeOpens(t1);
    LeadStep(cc, a1, t1, kind);
    var a2, t2 := PS.W(a1, kind + " "), Blank(Named(t1, kind));
    WordStep(cc, a2, t2, x.name);
    var a3, t3 := PS.W(a2, x.name), Named(t2, x.name);
    BracketedTracks(cc, a3, t3, x.args);
    var a4, t4 := PS.BracketedArgumentsShape(a3, x.args), BracketedItems(t3, x.args);
    if x.parentName.Some? { ParentTracks(cc, a4, t4, x.parentName.value); }
    HostTracks(cc,
      if x.parentName.Some? then PS.W(PS.W(PS.W(a4, "("), PS.Name(x.parentName.value)), ")") else a4,
      if x.parentName.Some? then Sign(NameItems(Sign(t4, OpenParen), x.parentName.value), CloseParen) else t4,
      x.forHostName);
  }

  lemma {:induction false} MixinNamesTrack(cc: CharClass, sh: PS.S, t: Items, xs: seq<P.Identifier>)
    requires Tracks(cc, sh, t) && Fresh(t) && OkNames(cc, xs)
    ensures Tracks(cc, PS.MixinNamesShape(sh, xs), MixinNamesItems(t, xs))
    ensures xs != [] ==> Shuts(MixinNamesItems(t, xs))
    decreases xs
  {
    hide Tracks, Opens, Shuts, Free, Fresh, NameOk, PS.Name, NameItems;
    FreeOpens(t);
    if xs != [] {
      var n := |xs| - 1;
      if n == 0 {
        NameStep(cc, sh, t, xs[n]);
      } else {
        MixinNamesTrack(cc, sh, t, xs[..n]);
        var b, u := PS.MixinNamesShape(sh, xs[..n]), MixinNamesItems(t, xs[..n]);
        CloseStep(cc, b, u, Op.Comma);
        EndStep(cc, PS.W(b, ","), Sign(u, Op.Comma));
        NameStep(cc, PS.N(PS.W(b, ",")), End(Sign(u, Op.Comma)), xs[n]);
      }
    }
  }

  lemma MixinsTrack(cc: CharClass, sh: PS.S, t: Items, xs: seq<P.Identifier>)
    requires cc.Standard() && Tracks(cc, sh, t) && Fresh(t) && OkNames(cc, xs)
    ensures Tracks(cc, PS.MixinsShape(sh, xs), MixinsItems(t, xs)) && Fresh(MixinsItems(t, xs))
  {
    hide Tracks, Opens, Shuts, Free, Fresh, OkNames, PS.MixinNamesShape, MixinNamesItems;
    LayStep(cc, sh, t);
    LaySame(t);
    FreeOpens(Lay(t));
    LeadStep(cc, PS.F(sh), Lay(t), "mixin");
    var a1, t1 := PS.W(PS.F(sh), "mixin "), Blank(Named(Lay(t), "mixin"));
    assert "mixin" + " " == "mixin ";
    OpenStep(cc, a1, t1, OpenBracket);
    Joined(cc, PS.F(sh), "mixin ", "[", Sign(t1, OpenBracket));
    assert "mixin " + "[" == "mixin [";
    var a2, t2 := PS.W(PS.F(sh), "mixin ["), Sign(t1, OpenBracket);
    IndentStep(cc, a2, t2);
    EndStep(cc, PS.I(a2), t2);
    var a3, t3 := PS.N(PS.I(a2)), End(t2);
    MixinNamesTrack(cc, a3, t3, xs);
    var a4, t4 := PS.MixinNamesShape(a3, xs), MixinNamesItems(t3, xs);
    IndentStep(cc, a4, t4);
    EndStep(cc, PS.D(a4), t4);
    CloseStep(cc, PS.N(PS.D(a4)), End(t4), CloseBracket);
    EndStep(cc, PS.W(PS.N(PS.D(a4)), "]"), Sign(End(t4), CloseBracket));
  }

  lemma IndexKeyTracks(cc: CharClass, sh: PS.S, t: Items, x: P.IndexSignature)
    requires cc.Standard() && Tracks(cc, sh, t) && Fresh(t) && OkIndex(cc, x)
    ensures Tracks(cc, PS.IndexKeyShape(sh, x), IndexKeyItems(t, x)) && Shuts(IndexKeyItems(t, x))
  {
    hide Tracks, Opens, Shuts, Free, Fresh, OkExpr, IsWord, AtomOk, Typed, Named;
    LayStep(cc, sh, t);
    LaySame(t);
    FreeOpens(Lay(t));
    OpenStep(cc, PS.F(sh), Lay(t), OpenBracket);
    var a1, t1 := PS.W(PS.F(sh), "["), Sign(Lay(t), OpenBracket);
    if x.anyOther { OpenStep(cc, a1, t1, DotDotDot); }
    var a2, t2 := if x.anyOther then PS.W(a1, "...") else a1, if x.anyOther then Sign(t1, DotDotDot) else t1;
    if x.keyName.Some? {
      WordStep(cc, a2, t2, x.keyName.value);
      ColonStep(cc, PS.W(a2, x.keyName.value), Named(t2, x.keyName.value));
      Joined(cc, a2, x.keyName.value, ": ", Typed(Named(t2, x.keyName.value)));
    }
    GivenStep(cc, if x.keyName.Some? then PS.W(a2, x.keyName.value + ": ") else a2,
              if x.keyName.Some? then Typed(Named(t2, x.keyName.value)) else t2, x.keyType);
  }

  lemma {:induction false} IndexSignatureTracks(cc: CharClass, sh: PS.S, t: Items, x: P.IndexSignature)
    requires cc.Standard() && Tracks(cc, sh, t) && Fresh(t) && OkIndex(cc, x)
    ensures Tracks(cc, PS.IndexSignatureShape(sh, x), IndexItems(t, x)) && Fresh(IndexItems(t, x))
    decreases x
  {
    hide Tracks, Opens, Shuts, Free, Fresh, OkExpr, IsWord, AtomOk, PS.IndexKeyShape, IndexKeyItems, PS.ExprShape;
    hide ExprItems, Typed, Equals;
    IndexKeyTracks(cc, sh, t, x);
    var a1, t1 := PS.IndexKeyShape(sh, x), IndexKeyItems(t, x);
    CloseStep(cc, a1, t1, CloseBracket);
    var a2, t2 := PS.W(a1, "]"), Sign(t1, CloseBracket);
    ColonStep(cc, a2, t2);
    GivenStep(cc, PS.W(PS.W(a2, ":"), " "), Typed(t2), x.valueType);
    var a3, t3 := PS.W(PS.W(PS.W(a2, ":"), " "), x.valueType), A(Typed(t2), Given(x.valueType));
    if x.value.Some? {
      EqualsStep(cc, a3, t3);
      ExprTracks(cc, PS.W(a3, " = "), Equals(t3), x.value.value);
    }
    EndStep(cc, PS.OptionShape(a3, " = ", x.value),
            match x.value case Some(value) => ExprItems(Equals(t3), value) case None => t3);
  }

  lemma DocTracks(cc: CharClass, sh: PS.S, t: Items, doc: string)
    requires Tracks(cc, sh, t) && Fresh(t) && TextOk(cc, doc)
    ensures Tracks(cc, PS.B(PS.W(PS.F(sh), doc)), End(A(Lay(t), Given(doc))))
    ensures Tracks(cc, PS.N(PS.W(sh, doc)), End(A(t, Given(doc))))
    ensures Fresh(End(A(Lay(t), Given(doc)))) && Fresh(End(A(t, Given(doc))))
  {
    hide Tracks, Opens, Shuts, Free, Fresh, AtomOk;
    LayStep(cc, sh, t);
    LaySame(t);
    FreeOpens(t);
    GivenStep(cc, PS.F(sh), Lay(t), doc);
    GivenStep(cc, sh, t, doc);
    EndStep(cc, PS.W(PS.F(sh), doc), A(Lay(t), Given(doc)));
    EndStep(cc, PS.W(sh, doc), A(t, Given(doc)));
  }

  lemma {:induction false} SchemaFrontTracks(cc: CharClass, sh: PS.S, t: Items, x: P.SchemaStmt)
    requires cc.Standard() && Tracks(cc, sh, t) && Fresh(t) && OkSchema(cc, x)
    ensures Tracks(cc, PS.SchemaFrontShape(sh, x), SchemaFrontItems(t, x)) && Fresh(SchemaFrontItems(t, x))
    decreases x, 0
  {
    hide Tracks, Opens, Shuts, Free, Fresh, OkCalls, OkArguments, OkNames, OkIndex, OkStmts, OkChecks, NameOk, AtomOk;
    hide IsWord, PS.MixinsShape, MixinsItems, PS.IndexSignatureShape, IndexItems;
    if x.doc != "" { DocTracks(cc, sh, t, x.doc); }
    var a1, t1 := if x.doc != "" then PS.B(PS.W(PS.F(sh), x.doc)) else sh,
      if x.doc != "" then End(A(Lay(t), Given(x.doc))) else t;
    if x.mixins != [] { MixinsTrack(cc, a1, t1, x.mixins); }
    var a2, t2 := if x.mixins != [] then PS.MixinsShape(a1, x.mixins) else a1,
      if x.mixins != [] then MixinsItems(t1, x.mixins) else t1;
    if x.index.Some? { IndexSignatureTracks(cc, a2, t2, x.index.value); }
  }

  lemma {:induction false} ChecksTrack(cc: CharClass, sh: PS.S, t: Items, xs: seq<P.CheckExpr>)
    requires cc.Standard() && Tracks(cc, sh, t) && Opens(t) && OkChecks(cc, xs)
    ensures Tracks(cc, PS.ChecksShape(sh, xs), ChecksItems(t, xs))
    decreases xs
  {
    hide Tracks, Opens, Shuts, Free, Fresh, OkCheck, PS.CheckShape, CheckItems;
    if xs != [] {
      var n := |xs| - 1;
      ChecksTrack(cc, sh, t, xs[..n]);
      var b, u := PS.ChecksShape(sh, xs[..n]), ChecksItems(t, xs[..n]);
      EndStep(cc, b, u);
      CheckTracks(cc, if n == 0 then sh else PS.N(b), if n == 0 then t else End(u), xs[n]);
    }
  }

  lemma {:induction false} SchemaTracks(cc: CharClass, sh: PS.S, t: Items, x: P.SchemaStmt)
    requires cc.Standard() && Tracks(cc, sh, t) && Fresh(t) && OkSchema(cc, x)
    ensures Tracks(cc, PS.SchemaStmtShape(sh, x), SchemaItems(t, x)) && Fresh(SchemaItems(t, x))
    decreases x, 1
  {
    hide Tracks, Opens, Shuts, Free, Fresh, OkCalls, OkArguments, OkNames, OkIndex, OkStmts, OkChecks, NameOk, AtomOk;
    hide PS.SchemaHeadShape, SchemaHeadItems, PS.SchemaFrontShape, SchemaFrontItems, PS.StmtsShape, StmtsItems;
    hide PS.ChecksShape, ChecksItems;
    SchemaHeadTracks(cc, sh, t, x);
    var a1, t1 := PS.SchemaHeadShape(sh, x), SchemaHeadItems(t, x);
    HeadStep(cc, a1, t1);
    var a2, t2 := PS.I(PS.B(PS.W(a1, ":"))), End(Sign(t1, Op.Colon));
    SchemaFrontTracks(cc, a2, t2, x);
    var a3, t3 := PS.SchemaFrontShape(a2, x), SchemaFrontItems(t2, x);
    StmtsTrack(cc, a3, t3, x.body);
    var a4, t4 := PS.B(PS.StmtsShape(a3, x.body)), End(StmtsItems(t3, x.body));
    EndStep(cc, PS.StmtsShape(a3, x.body), StmtsItems(t3, x.body));
    IndentStep(cc, a4, t4);
    if x.checks != [] {
      CheckHeadStep(cc, a4, t4);
      var a5, t5 := PS.N(PS.I(PS.W(PS.F(a4), "check:"))), End(Sign(Named(Lay(t4), "check"), Op.Colon));
      ChecksTrack(cc, a5, t5, x.checks);
      var a6, t6 := PS.B(PS.ChecksShape(a5, x.checks)), End(ChecksItems(t5, x.checks));
      EndStep(cc, PS.ChecksShape(a5, x.checks), ChecksItems(t5, x.checks));
      IndentStep(cc, a6, t6);
      EndStep(cc, PS.D(a6), t6);
      IndentStep(cc, PS.B(PS.D(a6)), End(t6));
    }
  }

  lemma CheckHeadStep(cc: CharClass, sh: PS.S, t: Items)
    requires cc.Standard() && Tracks(cc, sh, t) && Fresh(t)
    ensures var t' := End(Sign(Named(Lay(t), "check"), Op.Colon));
      Tracks(cc, PS.N(PS.I(PS.W(PS.F(sh), "check:"))), t') && Opens(t')
  {
    hide Tracks, Opens, Shuts, Free, Fresh;
    LayStep(cc, sh, t);
    LaySame(t);
    FreeOpens(Lay(t));
    AsciiWord(cc, "check");
    hide IsWord;
    WordStep(cc, PS.F(sh), Lay(t), "check");
    HeadStep(cc, PS.W(PS.F(sh), "check"), Named(Lay(t), "check"));
    assert "check" + ":" == "check:";
    HeadJoined(cc, PS.F(sh), "check", End(Sign(Named(Lay(t), "check"), Op.Colon)));
  }

  lemma {:induction false} RuleHeadTracks(cc: CharClass, sh: PS.S, t: Items, x: P.RuleStmt)
    requires cc.Standard() && Tracks(cc, sh, t) && Fresh(t) && OkRule(cc, x)
    ensures Tracks(cc, PS.RuleHeadShape(sh, x), RuleHeadItems(t, x)) && Shuts(RuleHeadItems(t, x))
    decreases x, 0
  {
    hide Tracks, Opens, Shuts, Free, Fresh, OkCalls, OkArguments, OkNames, OkChecks, NameOk, AtomOk, IsWord;
    hide PS.DecoratedShape, DecoratedItems, PS.BracketedArgumentsShape, BracketedItems, PS.Name, NameItems, Mid;
    hide PS.IdentifiersShape, NamesItems, Blank, Named;
    DecoratedTracks(cc, sh, t, x.decorators);
    var a1, t1 := PS.DecoratedShape(sh, x.decorators), DecoratedItems(t, x.decorators);
    FreeOpens(t1);
    LeadStep(cc, a1, t1, "rule");
    assert "rule" + " " == "rule ";
    var a2, t2 := PS.W(a1, "rule "), Blank(Named(t1, "rule"));
    WordStep(cc, a2, t2, x.name);
    var a3, t3 := PS.W(a2, x.name), Named(t2, x.name);
    BracketedTracks(cc, a3, t3, x.args);
    var a4, t4 := PS.BracketedArgumentsShape(a3, x.args), BracketedItems(t3, x.args);
    if x.parentRules != [] { ParentsTrack(cc, a4, t4, x.parentRules); }
    HostTracks(cc,
      if x.parentRules != [] then PS.W(PS.IdentifiersShape(PS.W(a4, "("), x.parentRules), ")") else a4,
      if x.parentRules != [] then Sign(NamesItems(Sign(t4, OpenParen), x.parentRules), CloseParen) else t4,
      x.forHostName);
  }

  lemma {:induction false} RuleTracks(cc: CharClass, sh: PS.S, t: Items, x: P.RuleStmt)
    requires cc.Standard() && Tracks(cc, sh, t) && Fresh(t) && OkRule(cc, x)
    ensures Tracks(cc, PS.RuleStmtShape(sh, x), RuleItems(t, x)) && Fresh(RuleItems(t, x))
    decreases x, 1
  {
    hide Tracks, Opens, Shuts, Free, Fresh, OkCalls, OkArguments, OkNames, OkChecks, NameOk, AtomOk, IsWord;
    hide PS.RuleHeadShape, RuleHeadItems, PS.ChecksShape, ChecksItems;
    RuleHeadTracks(cc, sh, t, x);
    var a1, t1 := PS.RuleHeadShape(sh, x), RuleHeadItems(t, x);
    HeadStep(cc, a1, t1);
    var a2, t2 := PS.N(PS.I(PS.W(a1, ":"))), End(Sign(t1, Op.Colon));
    if x.doc != "" { DocTracks(cc, a2, t2, x.doc); }
    var a3, t3 := if x.doc != "" then PS.N(PS.W(a2, x.doc)) else a2,
      if x.doc != "" then End(A(t2, Given(x.doc))) else t2;
    FreeOpens(t3);
    IndentStep(cc, a3, t3);
    if x.checks != [] {
      ChecksTrack(cc, a3, t3, x.checks);
      EndStep(cc, PS.ChecksShape(a3, x.checks), ChecksItems(t3, x.checks));
      IndentStep(cc, PS.B(PS.ChecksShape(a3, x.checks)), End(ChecksItems(t3, x.checks)));
    }
  }

  // ----- the printed text -----

  lemma ModuleTracks(cc: CharClass, m: P.Module)
    requires cc.Standard() && OkModule(cc, m)
    ensures Tracks(cc, PS.ModuleShape([], m), ModuleItems(m))
  {
    hide Tracks, Fresh, OkStmts, AtomOk, PS.StmtsShape, StmtsItems;
    NothingTracks(cc);
    if m.doc != "" { DocTracks(cc, [], [], m.doc); }
    StmtsTrack(cc, if m.doc != "" then PS.N(PS.W([], m.doc)) else [],
               if m.doc != "" then End(A([], Given(m.doc))) else [], m.body);
  }

  /** Comments as the parser has them. */
  ghost predicate NotesOk(ps: seq<PS.Piece>)
  {
    forall note | note in PS.NotesOf(ps) :: CommentText(note.text)
  }

  /** The text of a printed module, in any layout and with all its comments, is lexed as the tokens of the module in
      order, with the tokens of the layout in the places that layout has. */
  lemma PrintedModuleLexes(cc: CharClass, m: P.Module, ps: seq<PS.Piece>)
    requires cc.Standard() && OkModule(cc, m) && NotesOk(ps)
    requires PS.Shape(ps) == PS.ModuleShape([], m) && PS.Placed(ps)
    ensures Tokens(cc, PS.Render(ps))
      == AtomsTokens(cc, Filled(ModuleItems(m), FillsOf(BeforeRest(ps))) + RestAtoms(ps))
  {
    hide Reads, PS.Placed, PS.Render, PS.Shape, Filled, FillsOf, OkModule, PS.ModuleShape, ModuleItems, AllCells, Cells;
    ModuleTracks(cc, m);
    RenderLexes(cc, ModuleItems(m), ps);
  }

  /** The same for one expression. */
  lemma PrintedExprLexes(cc: CharClass, x: P.Node<P.Expr>, ps: seq<PS.Piece>)
    requires cc.Standard() && OkItem(cc, x) && NotesOk(ps)
    requires PS.Shape(ps) == PS.ExprShape([], x) && PS.Placed(ps)
    ensures Tokens(cc, PS.Render(ps))
      == AtomsTokens(cc, Filled(ExprItems([], x), FillsOf(BeforeRest(ps))) + RestAtoms(ps))
  {
    hide Reads, PS.Placed, PS.Render, PS.Shape, Filled, FillsOf, OkItem, PS.ExprShape, ExprItems, AllCells, Cells;
    NothingTracks(cc);
    FreeOpens([]);
    ItemTracks(cc, [], [], x);
    RenderLexes(cc, ExprItems([], x), ps);
  }
}
