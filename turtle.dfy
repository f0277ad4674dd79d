/**
 * The Turtle emitter shared by every output entity: the literal and
 * prefixed-name helpers, a small document model that states what a
 * statement's text is, and the two list writers that append to a buffer.
 */
module Turtle {
  import opened Wrappers
  import opened Text

  // ---------------------------------------------------------------------
  // Literals and prefixed names
  // ---------------------------------------------------------------------

  /** `ToTurtle::string`: the text between double quotes, with nothing escaped. */
  function Literal(s: string): (r: string)
    ensures |r| == |s| + 2
    ensures r[0] == '"' && r[|r| - 1] == '"' && r[1..|r| - 1] == s
  {
    "\"" + s + "\""
  }

  /** The characters `pname` escapes in a local name. */
  predicate IsReserved(c: char) { c == '.' || c == ',' || c == '/' || c == '#' }

  function CountReserved(s: string): nat
  {
    if s == [] then 0 else (if IsReserved(s[0]) then 1 else 0) + CountReserved(s[1..])
  }

  function Escape(c: char): string
  {
    if IsReserved(c) then ['\\', c] else [c]
  }

  /**
   * `ToTurtle::pname`: a backslash in front of every reserved character,
   * everything else copied. Every reserved character of the result is
   * escaped, and the result grows by exactly one character per escape.
   */
  function Pname(s: string): (r: string)
    ensures |r| == |s| + CountReserved(s)
    ensures forall i :: 0 <= i < |r| && IsReserved(r[i]) ==> 0 < i && r[i - 1] == '\\'
  {
    if s == [] then [] else Escape(s[0]) + Pname(s[1..])
  }

  /** How a Turtle reader reads back an escaped local name: `\c` denotes `c` for a reserved `c`. */
  function Unescape(r: string): string
  {
    if r == [] then []
    else if |r| >= 2 && r[0] == '\\' && IsReserved(r[1]) then [r[1]] + Unescape(r[2..])
    else [r[0]] + Unescape(r[1..])
  }

  /** A name written with `pname` reads back as the original name. */
  lemma {:induction false} PnameRoundTrip(s: string)
    ensures Unescape(Pname(s)) == s
  {
    if s != [] {
      PnameRoundTrip(s[1..]);
      var rest := Pname(s[1..]);
      assert Pname(s) == Escape(s[0]) + rest;
      if IsReserved(s[0]) {
        assert (Escape(s[0]) + rest)[2..] == rest;
      } else {
        assert (Escape(s[0]) + rest)[1..] == rest;
        if |rest| > 0 {
          assert !IsReserved(rest[0]);
        }
      }
    }
  }

  /** `pname` works character by character, so it distributes over concatenation. */
  lemma {:induction false} PnameAppend(a: string, b: string)
    ensures Pname(a + b) == Pname(a) + Pname(b)
  {
    if a != [] {
      assert (a + b)[1..] == a[1..] + b;
      PnameAppend(a[1..], b);
    } else {
      assert a + b == b;
    }
  }

  /** A name without reserved characters is written unchanged. */
  lemma {:induction false} PnameIdentity(s: string)
    requires CountReserved(s) == 0
    ensures Pname(s) == s
  {
    if s != [] {
      PnameIdentity(s[1..]);
    }
  }

  /** A name with no reserved character in it has none to count. */
  lemma {:induction false} Unreserved(s: string)
    requires forall c :: c in s ==> !IsReserved(c)
    ensures CountReserved(s) == 0
  {
    if s != [] {
      assert s[0] in s;
      assert forall c :: c in s[1..] ==> c in s;
      Unreserved(s[1..]);
    }
  }

  /** A qualifier such as `mgend_case:` has no reserved character, so `pname` of a qualified name escapes only the local part. */
  lemma PnameQualified(qualifier: string, local: string)
    requires forall c :: c in qualifier ==> !IsReserved(c)
    ensures Pname(qualifier + local) == qualifier + Pname(local)
  {
    Unreserved(qualifier);
    PnameAppend(qualifier, local);
    PnameIdentity(qualifier);
  }

  // ---------------------------------------------------------------------
  // Document model
  // ---------------------------------------------------------------------

  /** An object: a name or literal written as is, or a blank node with its own predicate lines. */
  datatype Term = Name(text: string) | Blank(pos: seq<PredObjs>)

  /**
   * How the objects of one predicate are separated: `Stacked` puts each
   * further object on its own line (`write_vec`), `Inline` is `join(", ")`,
   * `Nested` is the ` , [` that separates consecutive blank nodes.
   */
  datatype Layout = Stacked | Inline | Nested

  /** One predicate with its objects; a predicate without objects is not written at all. */
  datatype PredObjs = PredObjs(pred: string, layout: Layout, objs: seq<Term>)

  function Indent(d: nat): (r: string)
    ensures |r| == 2 * d
  {
    if d == 0 then "" else "  " + Indent(d - 1)
  }

  /** What comes before every predicate line after the first at depth `d`. */
  function Next(d: nat): string
  {
    " ;\n" + Indent(d)
  }

  function Separator(layout: Layout, d: nat): string
  {
    match layout
    case Stacked => " ,\n" + Indent(d + 1)
    case Inline => ", "
    case Nested => " , "
  }

  function RenderTerm(t: Term, d: nat): string
  {
    match t
    case Name(x) => x
    case Blank(pos) => "[" + Lines(pos, d + 1, "\n" + Indent(d + 1)) + ("\n" + Indent(d) + "]")
  }

  /** The objects in order, separated by `sep`; written from the end, as the writers append. */
  function RenderObjs(objs: seq<Term>, sep: string, d: nat): string
  {
    if objs == [] then ""
    else if |objs| == 1 then RenderTerm(objs[0], d)
    else RenderObjs(objs[..|objs| - 1], sep, d) + sep + RenderTerm(objs[|objs| - 1], d)
  }

  function RenderPredObjs(po: PredObjs, d: nat): string
  {
    po.pred + " " + RenderObjs(po.objs, Separator(po.layout, d), d)
  }

  /**
   * The predicate lines of a subject or blank node at depth `d`: predicates
   * without objects are skipped, the first written one is preceded by
   * `lead` and every later one by `Next(d)`.
   */
  function Lines(pos: seq<PredObjs>, d: nat, lead: string): string
  {
    if pos == [] then ""
    else if pos[0].objs == [] then Lines(pos[1..], d, lead)
    else lead + RenderPredObjs(pos[0], d) + Lines(pos[1..], d, Next(d))
  }

  /** Whether any predicate line of `pos` is written. */
  predicate AnyWritten(pos: seq<PredObjs>)
  {
    pos != [] && (pos[0].objs != [] || AnyWritten(pos[1..]))
  }

  /** One statement: the subject, its predicate lines, and the closing ` .` line. */
  function Statement(subject: string, pos: seq<PredObjs>): (r: string)
    ensures subject <= r
    ensures |r| >= |subject| + 3 && r[|r| - 3..] == " .\n"
  {
    subject + Lines(pos, 1, " ") + " .\n"
  }

  /** Whether the statement has a line for `pred`. */
  predicate Emits(pos: seq<PredObjs>, pred: string)
  {
    exists i :: 0 <= i < |pos| && pos[i].pred == pred && pos[i].objs != []
  }

  /** The name terms `f(x)` of a list of items, in order. */
  function Names<T>(items: seq<T>, f: T -> string): (r: seq<Term>)
    ensures |r| == |items|
    ensures forall i :: 0 <= i < |items| ==> r[i] == Name(f(items[i]))
  {
    seq(|items|, i requires 0 <= i < |items| => Name(f(items[i])))
  }

  /** Appending a predicate makes something written exactly when it has objects or something already was. */
  lemma {:induction false} AnyWrittenSnoc(pos: seq<PredObjs>, po: PredObjs)
    ensures AnyWritten(pos + [po]) == (AnyWritten(pos) || po.objs != [])
  {
    if pos == [] {
      assert [] + [po] == [po];
      assert [po][1..] == [];
    } else {
      assert (pos + [po])[0] == pos[0];
      assert (pos + [po])[1..] == pos[1..] + [po];
      AnyWrittenSnoc(pos[1..], po);
    }
  }

  /** Appending a predicate adds its line, led by `lead` only when nothing was written before it. */
  lemma {:induction false} LinesSnoc(pos: seq<PredObjs>, po: PredObjs, d: nat, lead: string)
    ensures AnyWritten(pos + [po]) == (AnyWritten(pos) || po.objs != [])
    ensures Lines(pos + [po], d, lead) ==
      Lines(pos, d, lead) + (if po.objs == [] then "" else (if AnyWritten(pos) then Next(d) else lead) + RenderPredObjs(po, d))
  {
    AnyWrittenSnoc(pos, po);
    if pos == [] {
      assert [] + [po] == [po];
      assert [po][1..] == [];
    } else {
      assert (pos + [po])[0] == pos[0];
      assert (pos + [po])[1..] == pos[1..] + [po];
      if pos[0].objs == [] {
        LinesSnoc(pos[1..], po, d, lead);
      } else {
        LinesSnoc(pos[1..], po, d, Next(d));
        var head, rest := lead + RenderPredObjs(pos[0], d), Lines(pos[1..], d, Next(d));
        var piece := if po.objs == [] then "" else Next(d) + RenderPredObjs(po, d);
        assert Lines(pos + [po], d, lead) == head + (rest + piece);
        Chain2(head, rest, piece);
      }
    }
  }

  /** A predicate with one name as its only object is written `pred name`. */
  lemma RenderOne(po: PredObjs, d: nat)
    requires |po.objs| == 1 && po.objs[0].Name?
    ensures RenderPredObjs(po, d) == po.pred + " " + po.objs[0].text
  {
    assert RenderObjs(po.objs, Separator(po.layout, d), d) == RenderTerm(po.objs[0], d);
  }

  /** Once a line has been written, a further predicate is led by `Next(d)`. */
  lemma AppendLine(pos: seq<PredObjs>, po: PredObjs, d: nat, lead: string)
    requires AnyWritten(pos)
    ensures AnyWritten(pos + [po])
    ensures Lines(pos + [po], d, lead) == Lines(pos, d, lead) + (if po.objs == [] then "" else Next(d) + RenderPredObjs(po, d))
  {
    LinesSnoc(pos, po, d, lead);
  }

  /** The lines of the first `k + 1` predicates extend those of the first `k` once something is written. */
  lemma LinesExtend(pos: seq<PredObjs>, k: nat, d: nat, lead: string)
    requires k < |pos| && AnyWritten(pos[..k])
    ensures AnyWritten(pos[..k + 1])
    ensures Lines(pos[..k + 1], d, lead) == Lines(pos[..k], d, lead) + (if pos[k].objs == [] then "" else Next(d) + RenderPredObjs(pos[k], d))
  {
    assert pos[..k + 1] == pos[..k] + [pos[k]];
    AppendLine(pos[..k], pos[k], d, lead);
  }

  /** After the first lines, the last predicate's line is written as a line of its own led by `Next(d)`. */
  lemma LinesLast(pos: seq<PredObjs>, k: nat, d: nat, lead: string)
    requires k + 1 == |pos| && AnyWritten(pos[..k])
    ensures Lines(pos, d, lead) == Lines(pos[..k], d, lead) + Lines([pos[k]], d, Next(d))
  {
    LinesExtend(pos, k, d, lead);
    LinesSingle(pos[k], d, Next(d));
    assert pos[..k + 1] == pos;
  }

  /** A statement whose first `k` lines are written as `head` ends with its last predicate's line and ` .`. */
  lemma StatementLast(subject: string, pos: seq<PredObjs>, k: nat, head: string)
    requires k + 1 == |pos| && AnyWritten(pos[..k]) && head == subject + Lines(pos[..k], 1, " ")
    ensures Statement(subject, pos) == head + Lines([pos[k]], 1, Next(1)) + " .\n"
  {
    LinesLast(pos, k, 1, " ");
  }

  /** Lines are written one predicate at a time: the first `k + 1` are the first `k` and then the line of predicate `k`. */
  lemma LinesStep(pos: seq<PredObjs>, k: nat, d: nat, lead: string, head: string)
    requires k < |pos| && AnyWritten(pos[..k]) && head == Lines(pos[..k], d, lead)
    ensures AnyWritten(pos[..k + 1])
    ensures Lines(pos[..k + 1], d, lead) == head + Lines([pos[k]], d, Next(d))
  {
    LinesExtend(pos, k, d, lead);
    LinesSingle(pos[k], d, Next(d));
  }

  /** The same step for the lines of a statement, behind its subject. */
  lemma StatementStep(subject: string, pos: seq<PredObjs>, k: nat, head: string)
    requires k < |pos| && AnyWritten(pos[..k]) && head == subject + Lines(pos[..k], 1, " ")
    ensures AnyWritten(pos[..k + 1])
    ensures subject + Lines(pos[..k + 1], 1, " ") == head + Lines([pos[k]], 1, Next(1))
  {
    LinesStep(pos, k, 1, " ", Lines(pos[..k], 1, " "));
  }

  /** The opening `subject a type` of a statement. */
  lemma OpeningLine(subject: string, pos: seq<PredObjs>)
    requires pos != [] && pos[0].pred == "a" && |pos[0].objs| == 1 && pos[0].objs[0].Name?
    ensures AnyWritten(pos[..1])
    ensures subject + Lines(pos[..1], 1, " ") == subject + " a " + pos[0].objs[0].text
  {
    FirstLine(pos, 1, " ");
    RenderOne(pos[0], 1);
  }

  /** With `Next(d)` as the lead, the lines of two runs of predicates are the lines of one and then the other. */
  lemma {:induction false} LinesConcatNext(a: seq<PredObjs>, b: seq<PredObjs>, d: nat)
    ensures Lines(a + b, d, Next(d)) == Lines(a, d, Next(d)) + Lines(b, d, Next(d))
  {
    if a == [] {
      assert a + b == b;
    } else {
      assert (a + b)[0] == a[0] && (a + b)[1..] == a[1..] + b;
      LinesConcatNext(a[1..], b, d);
    }
  }

  /** Once a line of `a` is written, every line after it is led by `Next(d)`. */
  lemma {:induction false} LinesAfterWritten(a: seq<PredObjs>, b: seq<PredObjs>, d: nat, lead: string)
    requires AnyWritten(a)
    ensures Lines(a + b, d, lead) == Lines(a, d, lead) + Lines(b, d, Next(d))
  {
    assert (a + b)[0] == a[0] && (a + b)[1..] == a[1..] + b;
    if a[0].objs == [] {
      LinesAfterWritten(a[1..], b, d, lead);
    } else {
      LinesConcatNext(a[1..], b, d);
    }
  }

  /** The first line, when written, is led by `lead`; every later one by `Next(d)`. */
  lemma LinesHead(pos: seq<PredObjs>, d: nat, lead: string)
    requires pos != [] && pos[0].objs != []
    ensures Lines(pos, d, lead) == Lines([pos[0]], d, lead) + Lines(pos[1..], d, Next(d))
  {
    LinesSingle(pos[0], d, lead);
  }

  /** With `Next(d)` as the lead, five lines are written one after the other. */
  lemma Lines5Slice(q: seq<PredObjs>, d: nat)
    requires |q| == 5
    ensures Lines(q, d, Next(d)) ==
      Lines([q[0]], d, Next(d)) + Lines([q[1]], d, Next(d)) + Lines([q[2]], d, Next(d)) +
      Lines([q[3]], d, Next(d)) + Lines([q[4]], d, Next(d))
  {
    assert q[..1] == [q[0]];
    LinesStepNext(q, 1, d);
    LinesStepNext(q, 2, d);
    LinesStepNext(q, 3, d);
    LinesStepNext(q, 4, d);
    assert q[..5] == q;
  }

  /** Regrouping a first piece and five more, for `Lines6`: string bookkeeping, not a fact about the model. */
  lemma Regroup1And5(a: string, b: string, c: string, e: string, f: string, g: string)
    ensures a + (b + c + e + f + g) == a + b + c + e + f + g
  {
  }

  /** The lines of six predicates, the first of them written: the first line and then each later one led by `Next(d)`. */
  lemma Lines6(pos: seq<PredObjs>, d: nat, lead: string)
    requires |pos| == 6 && pos[0].objs != []
    ensures Lines(pos, d, lead) ==
      Lines([pos[0]], d, lead) + Lines([pos[1]], d, Next(d)) + Lines([pos[2]], d, Next(d)) +
      Lines([pos[3]], d, Next(d)) + Lines([pos[4]], d, Next(d)) + Lines([pos[5]], d, Next(d))
  {
    var q := pos[1..];
    LinesHead(pos, d, lead);
    Lines5Slice(q, d);
    assert q[0] == pos[1] && q[1] == pos[2] && q[2] == pos[3] && q[3] == pos[4] && q[4] == pos[5];
    Regroup1And5(Lines([pos[0]], d, lead), Lines([pos[1]], d, Next(d)), Lines([pos[2]], d, Next(d)),
                 Lines([pos[3]], d, Next(d)), Lines([pos[4]], d, Next(d)), Lines([pos[5]], d, Next(d)));
  }

  /** With `Next(d)` as the lead, the lines of the first `k + 1` predicates are those of the first `k` and the line of predicate `k`. */
  lemma LinesStepNext(pos: seq<PredObjs>, k: nat, d: nat)
    requires k < |pos|
    ensures Lines(pos[..k + 1], d, Next(d)) == Lines(pos[..k], d, Next(d)) + Lines([pos[k]], d, Next(d))
  {
    assert pos[..k + 1] == pos[..k] + [pos[k]];
    LinesConcatNext(pos[..k], [pos[k]], d);
  }

  /** A later line of a statement with one name, written as the text `written` before the name. */
  lemma NamedLine(po: PredObjs, written: string)
    requires |po.objs| == 1 && po.objs[0].Name? && written == " ;\n  " + po.pred + " "
    ensures Lines([po], 1, Next(1)) == written + po.objs[0].text
  {
    NameLine(po);
  }

  /** A later line of a statement with at most one name: nothing without it. */
  lemma OptionalNamedLine(po: PredObjs, written: string)
    requires |po.objs| <= 1 && (po.objs != [] ==> po.objs[0].Name?) && written == " ;\n  " + po.pred + " "
    ensures Lines([po], 1, Next(1)) == if po.objs == [] then "" else written + po.objs[0].text
  {
    if po.objs == [] {
      LinesSingle(po, 1, Next(1));
    } else {
      NameLine(po);
    }
  }

  /** A later line with one object: `Next(d)`, the predicate, a space and the object. */
  lemma TermLine(po: PredObjs, d: nat)
    requires |po.objs| == 1
    ensures Lines([po], d, Next(d)) == Next(d) + po.pred + " " + RenderTerm(po.objs[0], d)
  {
    LinesSingle(po, d, Next(d));
    RenderSingle(po, d);
  }

  /** A later line of the statement with one name: ` ;\n  pred name`. */
  lemma NameLine(po: PredObjs)
    requires |po.objs| == 1 && po.objs[0].Name?
    ensures Lines([po], 1, Next(1)) == " ;\n  " + po.pred + " " + po.objs[0].text
  {
    Spacing();
    LinesSingle(po, 1, Next(1));
    RenderOne(po, 1);
  }

  /** A later line of the statement with one term of any kind, written as the text `written` before the term. */
  lemma StackedTermLine(po: PredObjs, written: string)
    requires |po.objs| == 1 && written == " ;\n  " + po.pred + " "
    ensures Lines([po], 1, Next(1)) == written + RenderTerm(po.objs[0], 1)
  {
    Spacing();
    TermLine(po, 1);
  }

  /** Text `written` and then a term, after `buf`, is the line of a predicate with that one term. */
  lemma StackedTermAfter(buf: string, po: PredObjs, written: string, out: string)
    requires |po.objs| == 1 && written == " ;\n  " + po.pred + " "
    requires out == buf + written + RenderTerm(po.objs[0], 1)
    ensures out == buf + Lines([po], 1, Next(1))
  {
    StackedTermLine(po, written);
  }

  /** A statement whose head is written, followed by two single lines and a run of lines. */
  lemma StatementAfterHead(subject: string, head: seq<PredObjs>, a: PredObjs, b: PredObjs, rest: seq<PredObjs>,
                           h: string, x: string, y: string, z: string)
    requires AnyWritten(head) && h == subject + Lines(head, 1, " ")
    requires x == Lines([a], 1, Next(1)) && y == Lines([b], 1, Next(1)) && z == Lines(rest, 1, Next(1))
    ensures Statement(subject, head + ([a, b] + rest)) == h + x + y + z + " .\n"
  {
    TwoThenRest(a, b, rest, x, y, z);
    LinesAfterWritten(head, [a, b] + rest, 1, " ");
    Regroup4(subject, Lines(head, 1, " "), x, y, z, " .\n");
  }

  /** With `Next(1)` as the lead, two single lines and then a run of lines. */
  lemma TwoThenRest(a: PredObjs, b: PredObjs, rest: seq<PredObjs>, x: string, y: string, z: string)
    requires x == Lines([a], 1, Next(1)) && y == Lines([b], 1, Next(1)) && z == Lines(rest, 1, Next(1))
    ensures Lines([a, b] + rest, 1, Next(1)) == x + y + z
  {
    Lines2Next(a, b, 1);
    LinesConcatNext([a, b], rest, 1);
  }

  /** Regrouping for `StatementAfterHead`: string bookkeeping, not a fact about the model. */
  lemma Regroup4(s: string, l: string, x: string, y: string, z: string, e: string)
    ensures s + (l + (x + y + z)) + e == s + l + x + y + z + e
  {
  }

  /** Regrouping six pieces after a prefix, for `Cases.WriteItem` and `Variants.Variant.WriteHead`: string bookkeeping only. */
  lemma Chain6(buf: string, a: string, b: string, c: string, e: string, f: string, g: string)
    ensures buf + (a + b + c + e + f + g) == buf + a + b + c + e + f + g
  {
  }

  /** The line for a single predicate: empty without objects, otherwise lead, predicate, objects. */
  lemma LinesSingle(po: PredObjs, d: nat, lead: string)
    ensures Lines([po], d, lead) == if po.objs == [] then "" else lead + RenderPredObjs(po, d)
  {
    assert [po][1..] == [];
  }

  /** A predicate with one object is written as the predicate, a space and the object. */
  lemma RenderSingle(po: PredObjs, d: nat)
    requires |po.objs| == 1
    ensures RenderPredObjs(po, d) == po.pred + " " + RenderTerm(po.objs[0], d)
  {
    assert RenderObjs(po.objs, Separator(po.layout, d), d) == RenderTerm(po.objs[0], d);
  }

  /** The first predicate line, when it has objects, is led by `lead`. */
  lemma FirstLine(pos: seq<PredObjs>, d: nat, lead: string)
    requires pos != [] && pos[0].objs != []
    ensures AnyWritten(pos[..1])
    ensures Lines(pos[..1], d, lead) == lead + RenderPredObjs(pos[0], d)
  {
    assert pos[..1] == [pos[0]];
    LinesSingle(pos[0], d, lead);
  }

  /** Two one-object lines open a statement or blank node: `lead p0 t0`, `Next(d)`, `p1 t1`. */
  lemma FirstTwo(pos: seq<PredObjs>, d: nat, lead: string)
    requires |pos| >= 2 && |pos[0].objs| == 1 && pos[0].objs[0].Name? && |pos[1].objs| == 1 && pos[1].objs[0].Name?
    ensures AnyWritten(pos[..2])
    ensures Lines(pos[..2], d, lead) ==
      lead + pos[0].pred + " " + pos[0].objs[0].text + Next(d) + pos[1].pred + " " + pos[1].objs[0].text
  {
    FirstLine(pos, d, lead);
    RenderOne(pos[0], d);
    RenderOne(pos[1], d);
    LinesExtend(pos, 1, d, lead);
  }

  /** Two written predicates: the first led by `lead`, the second by `Next(d)`. */
  lemma Lines2(p0: PredObjs, p1: PredObjs, d: nat, lead: string)
    requires p0.objs != [] && p1.objs != []
    ensures Lines([p0, p1], d, lead) == lead + RenderPredObjs(p0, d) + (Next(d) + RenderPredObjs(p1, d))
  {
    assert [p0, p1][1..] == [p1];
    LinesSingle(p1, d, Next(d));
  }

  /** Three written predicates, each after the first led by `Next(d)`. */
  lemma Lines3(p0: PredObjs, p1: PredObjs, p2: PredObjs, d: nat, lead: string)
    requires p0.objs != [] && p1.objs != [] && p2.objs != []
    ensures Lines([p0, p1, p2], d, lead) ==
      lead + RenderPredObjs(p0, d) + (Next(d) + RenderPredObjs(p1, d) + (Next(d) + RenderPredObjs(p2, d)))
  {
    assert [p0, p1, p2][1..] == [p1, p2];
    Lines2(p1, p2, d, Next(d));
  }

  /** A blank node of two one-object lines at depth `d`, the first a name. */
  lemma Blank2(p0: PredObjs, p1: PredObjs, d: nat)
    requires |p0.objs| == 1 && p0.objs[0].Name? && |p1.objs| == 1
    ensures RenderTerm(Blank([p0, p1]), d) ==
      "[" + ("\n" + Indent(d + 1) + p0.pred + " ") + p0.objs[0].text + (Next(d + 1) + p1.pred + " ") +
      RenderTerm(p1.objs[0], d + 1) + ("\n" + Indent(d) + "]")
  {
    Lines2(p0, p1, d + 1, "\n" + Indent(d + 1));
    RenderOne(p0, d + 1);
    RenderSingle(p1, d + 1);
  }

  /** A blank node of three one-object lines at depth `d`, the first a name. */
  lemma Blank3(p0: PredObjs, p1: PredObjs, p2: PredObjs, d: nat)
    requires |p0.objs| == 1 && p0.objs[0].Name? && |p1.objs| == 1 && |p2.objs| == 1
    ensures RenderTerm(Blank([p0, p1, p2]), d) ==
      "[" + ("\n" + Indent(d + 1) + p0.pred + " " + p0.objs[0].text) + (Next(d + 1) + p1.pred + " ") +
      RenderTerm(p1.objs[0], d + 1) + (Next(d + 1) + p2.pred + " ") + RenderTerm(p2.objs[0], d + 1) +
      ("\n" + Indent(d) + "]")
  {
    Lines3(p0, p1, p2, d + 1, "\n" + Indent(d + 1));
    RenderOne(p0, d + 1);
    RenderSingle(p1, d + 1);
    RenderSingle(p2, d + 1);
  }

  /** A blank node of two lines with one name each, at depth `d`. */
  lemma Blank2Names(p0: PredObjs, p1: PredObjs, d: nat)
    requires |p0.objs| == 1 && p0.objs[0].Name? && |p1.objs| == 1 && p1.objs[0].Name?
    ensures RenderTerm(Blank([p0, p1]), d) ==
      "[" + ("\n" + Indent(d + 1) + p0.pred + " ") + p0.objs[0].text + (Next(d + 1) + p1.pred + " ") +
      p1.objs[0].text + ("\n" + Indent(d) + "]")
  {
    Blank2(p0, p1, d);
  }

  /** With `Next(d)` as the lead, two lines are written one after the other. */
  lemma Lines2Next(a: PredObjs, b: PredObjs, d: nat)
    ensures Lines([a, b], d, Next(d)) == Lines([a], d, Next(d)) + Lines([b], d, Next(d))
  {
    assert [a] + [b] == [a, b];
    LinesConcatNext([a], [b], d);
  }

  /** With `Next(d)` as the lead, three lines are written one after the other. */
  lemma Lines3Next(a: PredObjs, b: PredObjs, c: PredObjs, d: nat)
    ensures Lines([a, b, c], d, Next(d)) == Lines([a], d, Next(d)) + Lines([b], d, Next(d)) + Lines([c], d, Next(d))
  {
    assert [a, b] + [c] == [a, b, c];
    LinesConcatNext([a, b], [c], d);
    Lines2Next(a, b, d);
  }

  /** With `Next(d)` as the lead, four lines are written one after the other. */
  lemma Lines4Next(a: PredObjs, b: PredObjs, c: PredObjs, e: PredObjs, d: nat)
    ensures Lines([a, b, c, e], d, Next(d)) ==
      Lines([a], d, Next(d)) + Lines([b], d, Next(d)) + Lines([c], d, Next(d)) + Lines([e], d, Next(d))
  {
    assert [a, b, c] + [e] == [a, b, c, e];
    LinesConcatNext([a, b, c], [e], d);
    Lines3Next(a, b, c, d);
  }

  /** A statement made of an opening line and four groups of lines, each group written after the one before. */
  lemma StatementOfGroups(subject: string, o: PredObjs, g1: seq<PredObjs>, g2: seq<PredObjs>, g3: seq<PredObjs>,
                          g4: seq<PredObjs>, h: string, x1: string, x2: string, x3: string, x4: string)
    requires o.objs != [] && h == subject + Lines([o], 1, " ")
    requires x1 == Lines(g1, 1, Next(1)) && x2 == Lines(g2, 1, Next(1))
    requires x3 == Lines(g3, 1, Next(1)) && x4 == Lines(g4, 1, Next(1))
    ensures Statement(subject, [o] + g1 + g2 + g3 + g4) == h + x1 + x2 + x3 + x4 + " .\n"
  {
    var rest := g1 + g2 + g3 + g4;
    GroupsAssoc(o, g1, g2, g3, g4);
    FourGroups(g1, g2, g3, g4, x1, x2, x3, x4);
    FirstThenRest(o, rest);
    Regroup6(subject, Lines([o], 1, " "), x1, x2, x3, x4, " .\n");
  }

  /** Regrouping for `StatementOfGroups`: sequence bookkeeping, not a fact about the model. */
  lemma GroupsAssoc(o: PredObjs, g1: seq<PredObjs>, g2: seq<PredObjs>, g3: seq<PredObjs>, g4: seq<PredObjs>)
    ensures [o] + g1 + g2 + g3 + g4 == [o] + (g1 + g2 + g3 + g4)
  {
  }

  lemma FourGroups(g1: seq<PredObjs>, g2: seq<PredObjs>, g3: seq<PredObjs>, g4: seq<PredObjs>,
                   x1: string, x2: string, x3: string, x4: string)
    requires x1 == Lines(g1, 1, Next(1)) && x2 == Lines(g2, 1, Next(1))
    requires x3 == Lines(g3, 1, Next(1)) && x4 == Lines(g4, 1, Next(1))
    ensures Lines(g1 + g2 + g3 + g4, 1, Next(1)) == x1 + x2 + x3 + x4
  {
    LinesConcatNext(g1, g2, 1);
    LinesConcatNext(g1 + g2, g3, 1);
    LinesConcatNext(g1 + g2 + g3, g4, 1);
  }

  /** A written first line, then the rest led by `Next(1)`. */
  lemma FirstThenRest(o: PredObjs, rest: seq<PredObjs>)
    requires o.objs != []
    ensures Lines([o] + rest, 1, " ") == Lines([o], 1, " ") + Lines(rest, 1, Next(1))
  {
    LinesAfterWritten([o], rest, 1, " ");
  }

  /** Regrouping for `StatementOfGroups`: string bookkeeping, not a fact about the model. */
  lemma Regroup6(s: string, l: string, x1: string, x2: string, x3: string, x4: string, e: string)
    ensures s + (l + (x1 + x2 + x3 + x4)) + e == s + l + x1 + x2 + x3 + x4 + e
  {
  }

  /** A statement has a line for `pred` exactly when one of its two parts has. */
  lemma EmitsConcat(a: seq<PredObjs>, b: seq<PredObjs>, pred: string)
    ensures Emits(a + b, pred) <==> Emits(a, pred) || Emits(b, pred)
  {
    if Emits(a + b, pred) {
      var i :| 0 <= i < |a + b| && (a + b)[i].pred == pred && (a + b)[i].objs != [];
      if i >= |a| {
        assert b[i - |a|] == (a + b)[i];
      } else {
        assert a[i] == (a + b)[i];
      }
    }
    if Emits(a, pred) {
      var i :| 0 <= i < |a| && a[i].pred == pred && a[i].objs != [];
      assert (a + b)[i] == a[i];
    }
    if Emits(b, pred) {
      var i :| 0 <= i < |b| && b[i].pred == pred && b[i].objs != [];
      assert (a + b)[|a| + i] == b[i];
    }
  }

  /** The objects of a line that is written only when a name is present. */
  function Named(o: Option<string>): (r: seq<Term>)
    ensures |r| <= 1 && (r != [] <==> o.Some?)
  {
    if o.Some? then [Name(o.value)] else []
  }

  /** A line with one name: ` ;\n  pred name`. */
  method WriteNamed(buf: string, pred: string, text: string) returns (out: string)
    ensures out == buf + Lines([PredObjs(pred, Stacked, [Name(text)])], 1, Next(1))
  {
    out := buf + (" ;\n  " + pred + " " + text);
    NameLine(PredObjs(pred, Stacked, [Name(text)]));
  }

  /** A line with one name when there is one, nothing otherwise. */
  method WriteOptionalNamed(buf: string, pred: string, o: Option<string>) returns (out: string)
    ensures out == buf + Lines([PredObjs(pred, Stacked, Named(o))], 1, Next(1))
  {
    if o.Some? {
      out := WriteNamed(buf, pred, o.value);
    } else {
      out := buf;
      LinesSingle(PredObjs(pred, Stacked, []), 1, Next(1));
    }
  }

  /** A line with one name at depth `d`, written as the text `written` before the name. */
  lemma NameLineAt(po: PredObjs, d: nat, written: string)
    requires |po.objs| == 1 && po.objs[0].Name? && written == Next(d) + po.pred + " "
    ensures Lines([po], d, Next(d)) == written + po.objs[0].text
  {
    LinesSingle(po, d, Next(d));
    RenderOne(po, d);
  }

  /** Appending the line of predicate `k` after the first `k` lines written behind `start`. */
  lemma LinesAppend(pos: seq<PredObjs>, k: nat, d: nat, lead: string, start: string, before: string, piece: string)
    requires k < |pos| && AnyWritten(pos[..k]) && before == start + Lines(pos[..k], d, lead)
    requires piece == Lines([pos[k]], d, Next(d))
    ensures AnyWritten(pos[..k + 1]) && before + piece == start + Lines(pos[..k + 1], d, lead)
  {
    LinesStep(pos, k, d, lead, Lines(pos[..k], d, lead));
  }

  /** The opening bracket, the lines at depth `d + 1` and the closing bracket, after `buf`, are the blank node's text. */
  lemma BlankAfter(buf: string, pos: seq<PredObjs>, d: nat, body: string, close: string, out: string)
    requires body == Lines(pos, d + 1, "\n" + Indent(d + 1)) && close == "\n" + Indent(d) + "]"
    requires out == buf + "[" + body + close
    ensures out == buf + RenderTerm(Blank(pos), d)
  {
  }

  /** Writing blank node `i` of a nested line after `buf`: the predicate before the first, ` , ` before a later one. */
  lemma NestedStep(buf: string, pred: string, terms: seq<Term>, i: nat, d: nat, written: string)
    requires i < |terms| && written == if i == 0 then Next(d) + pred + " " else " , "
    ensures buf + Lines([PredObjs(pred, Nested, terms[..i + 1])], d, Next(d)) ==
      buf + Lines([PredObjs(pred, Nested, terms[..i])], d, Next(d)) + written + RenderTerm(terms[i], d)
  {
    ObjectStep(pred, Nested, terms, i, d);
  }

  /** Two lines written one after the other after `buf` are the lines of the pair. */
  lemma Group2(buf: string, a: PredObjs, b: PredObjs, out: string)
    requires out == buf + Lines([a], 1, Next(1)) + Lines([b], 1, Next(1))
    ensures out == buf + Lines([a, b], 1, Next(1))
  {
    var x, y := Lines([a], 1, Next(1)), Lines([b], 1, Next(1));
    Lines2Next(a, b, 1);
    Chain2(buf, x, y);
  }

  /** Three lines written one after the other after `buf` are the lines of the three. */
  lemma Group3(buf: string, a: PredObjs, b: PredObjs, c: PredObjs, out: string)
    requires out == buf + Lines([a], 1, Next(1)) + Lines([b], 1, Next(1)) + Lines([c], 1, Next(1))
    ensures out == buf + Lines([a, b, c], 1, Next(1))
  {
    var x, y, z := Lines([a], 1, Next(1)), Lines([b], 1, Next(1)), Lines([c], 1, Next(1));
    Lines3Next(a, b, c, 1);
    Chain3(buf, x, y, z);
  }

  /** Four lines written one after the other after `buf` are the lines of the four. */
  lemma Group4(buf: string, a: PredObjs, b: PredObjs, c: PredObjs, e: PredObjs, out: string)
    requires out == buf + Lines([a], 1, Next(1)) + Lines([b], 1, Next(1)) + Lines([c], 1, Next(1)) +
      Lines([e], 1, Next(1))
    ensures out == buf + Lines([a, b, c, e], 1, Next(1))
  {
    var x, y, z, w := Lines([a], 1, Next(1)), Lines([b], 1, Next(1)), Lines([c], 1, Next(1)), Lines([e], 1, Next(1));
    Lines4Next(a, b, c, e, 1);
    Chain4(buf, x, y, z, w);
  }

  // The Chain lemmas only regroup what a writer appends piece by piece, so
  // that the proofs of `WriteVec`, the `Group` lemmas and the blank-node
  // writers of the case and variant modules can compare it with the
  // document model; they state nothing about the model itself.

  /** Appending two pieces one after the other appends their concatenation. */
  lemma Chain2(buf: string, a: string, b: string)
    ensures buf + a + b == buf + (a + b)
  {
  }

  /** Appending three pieces one after the other appends their concatenation. */
  lemma Chain3(buf: string, a: string, b: string, c: string)
    ensures buf + a + b + c == buf + (a + b + c)
  {
  }

  /** Appending four pieces one after the other appends their concatenation. */
  lemma Chain4(buf: string, a: string, b: string, c: string, e: string)
    ensures buf + a + b + c + e == buf + (a + b + c + e)
  {
  }

  /** Appending seven pieces one after the other appends their concatenation. */
  lemma Chain7(buf: string, a: string, b: string, c: string, e: string, f: string, g: string, h: string)
    ensures buf + a + b + c + e + f + g + h == buf + (a + b + c + e + f + g + h)
  {
  }

  /** The indentation of the nesting depths the writers reach. */
  lemma Indents()
    ensures Indent(1) == "  " && Indent(2) == "    " && Indent(3) == "      "
    ensures Indent(4) == "        " && Indent(5) == "          "
  {
    assert Indent(1) == "  ";
    assert Indent(2) == "    ";
    assert Indent(3) == "      ";
    assert Indent(4) == "        ";
  }

  /** A text written as it is. */
  function Verbatim(s: string): string { s }

  /** The written objects are the texts joined with the separator, the `join` the emitters use for type lists. */
  lemma {:induction false} RenderNamesJoin(xs: seq<string>, sep: string, d: nat)
    ensures RenderObjs(Names(xs, Verbatim), sep, d) == Join(xs, sep)
  {
    var objs := Names(xs, Verbatim);
    if |xs| > 1 {
      var n := |xs| - 1;
      assert objs[..n] == Names(xs[..n], Verbatim);
      RenderNamesJoin(xs[..n], sep, d);
      JoinSnoc(xs[..n], xs[n], sep);
      assert xs[..n] + [xs[n]] == xs;
    }
  }

  // ---------------------------------------------------------------------
  // The list writers
  // ---------------------------------------------------------------------

  /** Adding an object to a predicate's line: the first one opens the line, a later one follows a separator. */
  lemma LineSnocObject(pred: string, layout: Layout, objs: seq<Term>, t: Term, d: nat, lead: string)
    ensures Lines([PredObjs(pred, layout, objs + [t])], d, lead) ==
      if objs == [] then lead + pred + " " + RenderTerm(t, d)
      else Lines([PredObjs(pred, layout, objs)], d, lead) + Separator(layout, d) + RenderTerm(t, d)
  {
    var po, po' := PredObjs(pred, layout, objs), PredObjs(pred, layout, objs + [t]);
    var sep, last := Separator(layout, d), RenderTerm(t, d);
    LinesSingle(po', d, lead);
    if objs == [] {
      assert objs + [t] == [t];
      assert RenderPredObjs(po', d) == pred + " " + last;
      Chain2(lead, pred + " ", last);
    } else {
      LinesSingle(po, d, lead);
      assert (objs + [t])[..|objs|] == objs;
      var front := RenderObjs(objs, sep, d);
      assert RenderPredObjs(po', d) == pred + " " + (front + sep + last);
      assert RenderPredObjs(po, d) == pred + " " + front;
      ObjectRegroup(lead, pred + " ", front, sep, last);
    }
  }

  /** Regrouping for `LineSnocObject`: string bookkeeping, not a fact about the model. */
  lemma ObjectRegroup(lead: string, head: string, front: string, sep: string, last: string)
    ensures lead + (head + (front + sep + last)) == lead + (head + front) + sep + last
  {
  }

  /** Writing object `i` of a line: after the predicate when it is the first, after the separator otherwise. */
  lemma ObjectStep(pred: string, layout: Layout, objs: seq<Term>, i: nat, d: nat)
    requires i < |objs|
    ensures Lines([PredObjs(pred, layout, objs[..i + 1])], d, Next(d)) ==
      Lines([PredObjs(pred, layout, objs[..i])], d, Next(d)) +
      (if i == 0 then Next(d) + pred + " " else Separator(layout, d)) + RenderTerm(objs[i], d)
  {
    assert objs[..i + 1] == objs[..i] + [objs[i]];
    LineSnocObject(pred, layout, objs[..i], objs[i], d, Next(d));
    LinesSingle(PredObjs(pred, layout, objs[..i]), d, Next(d));
  }

  /** The literal spacing the writers use is the layout at depth one. */
  lemma Spacing()
    ensures Next(1) == " ;\n  "
    ensures Separator(Stacked, 1) == " ,\n    "
  {
    assert Indent(1) == "  ";
    assert Indent(2) == "    ";
  }

  /** The text one more name adds to a stacked line: the predicate before the first, ` ,` and a deeper indent before a later one. */
  lemma ObjectPiece(pred: string, objs: seq<Term>, x: string, piece: string)
    requires piece == if objs == [] then " ;\n  " + pred + " " + x else " ,\n    " + x
    ensures Lines([PredObjs(pred, Stacked, objs + [Name(x)])], 1, Next(1)) ==
      Lines([PredObjs(pred, Stacked, objs)], 1, Next(1)) + piece
  {
    LineSnocObject(pred, Stacked, objs, Name(x), 1, Next(1));
    Spacing();
    if objs == [] {
      LinesSingle(PredObjs(pred, Stacked, objs), 1, Next(1));
    } else {
      Chain2(Lines([PredObjs(pred, Stacked, objs)], 1, Next(1)), " ,\n    ", x);
    }
  }

  /**
   * `ToTurtle::write_vec`: appends the predicate line for `items` to `buf`,
   * i.e. ` ;\n  pred f(x0)` followed by ` ,\n    f(xi)` for each later item,
   * and nothing at all when there are no items.
   */
  method WriteVec<T>(buf: string, items: seq<T>, pred: string, f: T -> string) returns (out: string)
    ensures out == buf + Lines([PredObjs(pred, Stacked, Names(items, f))], 1, Next(1))
  {
    ghost var objs := Names(items, f);
    out := buf;
    var i := 0;
    LinesSingle(PredObjs(pred, Stacked, objs[..0]), 1, Next(1));
    while i < |items|
      invariant 0 <= i <= |items|
      invariant out == buf + Lines([PredObjs(pred, Stacked, objs[..i])], 1, Next(1))
    {
      var piece := if i == 0 then " ;\n  " + pred + " " + f(items[i]) else " ,\n    " + f(items[i]);
      ObjectPiece(pred, objs[..i], f(items[i]), piece);
      assert objs[..i + 1] == objs[..i] + [Name(f(items[i]))];
      Chain2(buf, Lines([PredObjs(pred, Stacked, objs[..i])], 1, Next(1)), piece);
      out := out + piece;
      i := i + 1;
    }
    assert objs[..|items|] == objs;
  }

  /**
   * `ToTurtle::write_set`: the same text over the elements of a set, in an
   * order the set chooses; `order` is that order, which lists every element
   * exactly once.
   */
  method WriteSet<T(==)>(buf: string, items: set<T>, pred: string, f: T -> string) returns (out: string, ghost order: seq<T>)
    ensures |order| == |items|
    ensures forall x :: x in items <==> x in order
    ensures forall i, j :: 0 <= i < j < |order| ==> order[i] != order[j]
    ensures out == buf + Lines([PredObjs(pred, Stacked, Names(order, f))], 1, Next(1))
  {
    out := buf;
    order := [];
    var rest := items;
    var i := 0;
    LinesSingle(PredObjs(pred, Stacked, Names(order, f)), 1, Next(1));
    while rest != {}
      invariant i == |order|
      invariant rest <= items
      invariant forall x :: x in items <==> x in rest || x in order
      invariant forall x :: x in order ==> x !in rest
      invariant forall i, j :: 0 <= i < j < |order| ==> order[i] != order[j]
      invariant |order| + |rest| == |items|
      invariant out == buf + Lines([PredObjs(pred, Stacked, Names(order, f))], 1, Next(1))
      decreases |rest|
    {
      var x :| x in rest;
      var piece := if i == 0 then " ;\n  " + pred + " " + f(x) else " ,\n    " + f(x);
      ObjectPiece(pred, Names(order, f), f(x), piece);
      assert Names(order + [x], f) == Names(order, f) + [Name(f(x))];
      Chain2(buf, Lines([PredObjs(pred, Stacked, Names(order, f))], 1, Next(1)), piece);
      out := out + piece;
      order := order + [x];
      rest := rest - {x};
      i := i + 1;
    }
  }
}
