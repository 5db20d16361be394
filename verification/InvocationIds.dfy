/** The text form of invocation ids and continuation ids: fields joined by colons. */
module InvocationIds {
  import opened Kinds
  import opened Workflow

  predicate Plain(field: string) {
    ':' !in field
  }

  function Digit(d: nat): char
    requires d < 10
  {
    "0123456789"[d]
  }

  function Decimal(n: nat): (text: string)
    ensures text != ""
  {
    (if n < 10 then [] else Decimal(n / 10)) + [Digit(n % 10)]
  }

  function StageText(stage: Stage): string {
    match stage
    case Preflight => "preflight"
    case Intake => "intake"
    case Requirements => "requirements"
    case Discovery => "discovery"
    case Planning => "planning"
    case Implementation => "implementation"
    case Integration => "integration"
    case Evaluation => "evaluation"
    case Release => "release"
  }

  /** The id an invocation's message carries; attempt numbers appear only when they are positive. */
  function InvocationId(run: string, i: Invocation): string {
    run + ":" + StageText(i.stage) + ":" + i.agent
    + (if i.repair > 0 then ":repair:" + Decimal(i.repair) else "")
    + (if i.retry > 0 then ":retry:" + Decimal(i.retry) else "")
  }

  /** The id of the message that continues an invocation after a human action; the action's id is any text. */
  function ContinuationId(run: string, i: Invocation, action: string): string {
    InvocationId(run, i) + ":human:" + action
  }

  // ----- splitting at colons -----

  function Split(text: string): (fields: seq<string>)
    ensures fields != []
  {
    if text == "" then [""]
    else
      var rest := Split(text[1..]);
      if text[0] == ':' then [""] + rest else [[text[0]] + rest[0]] + rest[1..]
  }

  function Join(fields: seq<string>): string
    requires fields != []
  {
    if |fields| == 1 then fields[0] else fields[0] + ":" + Join(fields[1..])
  }

  lemma {:induction false} SplitOne(field: string)
    requires Plain(field)
    ensures Split(field) == [field]
  {
    if field != "" {
      SplitOne(field[1..]);
      assert [field[0]] + field[1..] == field;
    }
  }

  lemma {:induction false} SplitFirst(field: string, text: string)
    requires Plain(field)
    ensures Split(field + ":" + text) == [field] + Split(text)
  {
    if field == "" {
      assert (":" + text)[1..] == text;
      assert field + ":" + text == ":" + text;
    } else {
      SplitFirst(field[1..], text);
      assert (field + ":" + text)[1..] == field[1..] + ":" + text;
      assert ([field[1..]] + Split(text))[1..] == Split(text);
      assert [field[0]] + field[1..] == field;
    }
  }

  /** Plain fields come back from the joined text, in front of whatever follows. */
  lemma {:induction false} SplitJoined(fields: seq<string>)
    requires fields != [] && forall f :: f in fields ==> Plain(f)
    ensures Split(Join(fields)) == fields
  {
    if |fields| == 1 {
      SplitOne(fields[0]);
    } else {
      SplitJoined(fields[1..]);
      SplitFirst(fields[0], Join(fields[1..]));
      assert fields == [fields[0]] + fields[1..];
    }
  }

  lemma Reassociate(a: string, b: string, text: string)
    ensures a + ":" + b + ":" + text == a + ":" + (b + ":" + text)
  {
  }

  lemma {:induction false} SplitExtended(fields: seq<string>, text: string)
    requires fields != [] && forall f :: f in fields ==> Plain(f)
    ensures Split(Join(fields) + ":" + text) == fields + Split(text)
  {
    if |fields| == 1 {
      SplitFirst(fields[0], text);
    } else {
      var rest := fields[1..];
      SplitExtended(rest, text);
      SplitFirst(fields[0], Join(rest) + ":" + text);
      Reassociate(fields[0], Join(rest), text);
      assert fields == [fields[0]] + rest;
      assert [fields[0]] + (rest + Split(text)) == fields + Split(text);
    }
  }

  // ----- decimals -----

  lemma {:induction false} DecimalIsPlain(n: nat)
    ensures Plain(Decimal(n))
  {
    if n >= 10 {
      DecimalIsPlain(n / 10);
    }
  }

  lemma {:induction false} DecimalIsInjective(a: nat, b: nat)
    requires Decimal(a) == Decimal(b)
    ensures a == b
    decreases a
  {
    var x, y := Decimal(a), Decimal(b);
    assert x[|x| - 1] == y[|y| - 1] && x[..|x| - 1] == y[..|y| - 1];
    assert a % 10 == b % 10 by {
      assert Digit(a % 10) == Digit(b % 10);
    }
    if a >= 10 && b >= 10 {
      DecimalIsInjective(a / 10, b / 10);
    }
  }

  // ----- the fields of an id -----

  function Numbered(tag: string, n: nat): seq<string> {
    if n > 0 then [tag, Decimal(n)] else []
  }

  function Fields(run: string, i: Invocation): seq<string> {
    [run, StageText(i.stage), i.agent] + Numbered("repair", i.repair) + Numbered("retry", i.retry)
  }

  predicate Wellformed(run: string, i: Invocation) {
    Plain(run) && Plain(i.agent)
  }

  lemma StageIsPlain(stage: Stage)
    ensures Plain(StageText(stage))
  {
  }

  lemma StageTextIsInjective(a: Stage, b: Stage)
    requires StageText(a) == StageText(b)
    ensures a == b
  {
    assert |StageText(a)| == |StageText(b)|;
    assert StageText(a)[0] == StageText(b)[0];
    assert StageText(a)[2] == StageText(b)[2];
  }

  lemma NumberedIsPlain(tag: string, n: nat)
    requires Plain(tag)
    ensures forall f :: f in Numbered(tag, n) ==> Plain(f)
  {
    DecimalIsPlain(n);
  }

  lemma FieldsArePlain(run: string, i: Invocation)
    requires Wellformed(run, i)
    ensures forall f :: f in Fields(run, i) ==> Plain(f)
  {
    StageIsPlain(i.stage);
    NumberedIsPlain("repair", i.repair);
    NumberedIsPlain("retry", i.retry);
  }

  lemma {:induction false} JoinMore(front: seq<string>, more: seq<string>)
    requires front != [] && more != []
    ensures Join(front + more) == Join(front) + ":" + Join(more)
  {
    if |front| == 1 {
      assert (front + more)[1..] == more;
    } else {
      JoinMore(front[1..], more);
      assert (front + more)[1..] == front[1..] + more;
      assert front[0] + ":" + (Join(front[1..]) + ":" + Join(more)) == Join(front) + ":" + Join(more);
    }
  }

  lemma JoinPair(a: string, b: string)
    ensures Join([a, b]) == a + ":" + b
  {
    assert [a, b][1..] == [b];
  }

  lemma JoinNumbered(front: seq<string>, tag: string, n: nat)
    requires front != []
    ensures Join(front + Numbered(tag, n)) == Join(front) + if n > 0 then ":" + tag + ":" + Decimal(n) else ""
  {
    if n > 0 {
      JoinMore(front, Numbered(tag, n));
      JoinPair(tag, Decimal(n));
    } else {
      assert front + [] == front;
    }
  }

  lemma IdIsJoined(run: string, i: Invocation)
    ensures InvocationId(run, i) == Join(Fields(run, i))
  {
    var base := [run, StageText(i.stage), i.agent];
    JoinMore([run], [StageText(i.stage), i.agent]);
    JoinPair(StageText(i.stage), i.agent);
    assert [run] + [StageText(i.stage), i.agent] == base;
    assert Join(base) == run + ":" + StageText(i.stage) + ":" + i.agent;
    SuffixIsJoined(base, i.repair, i.retry);
  }

  lemma SuffixIsJoined(base: seq<string>, repair: nat, retry: nat)
    requires base != []
    ensures Join(base + Numbered("repair", repair) + Numbered("retry", retry)) ==
              Join(base) + (if repair > 0 then ":repair:" + Decimal(repair) else "")
              + (if retry > 0 then ":retry:" + Decimal(retry) else "")
  {
    JoinNumbered(base, "repair", repair);
    JoinNumbered(base + Numbered("repair", repair), "retry", retry);
    assert ":" + "repair" + ":" == ":repair:" && ":" + "retry" + ":" == ":retry:";
  }

  // ----- ids tell invocations apart -----

  /** Different invocations have different ids. */
  lemma IdsAreInjective(run: string, i: Invocation, other: string, j: Invocation)
    requires Wellformed(run, i) && Wellformed(other, j) && InvocationId(run, i) == InvocationId(other, j)
    ensures run == other && i == j
  {
    IdIsJoined(run, i);
    IdIsJoined(other, j);
    FieldsArePlain(run, i);
    FieldsArePlain(other, j);
    SplitJoined(Fields(run, i));
    SplitJoined(Fields(other, j));
    FieldsAreInjective(run, i, other, j);
  }

  lemma FieldsAreInjective(run: string, i: Invocation, other: string, j: Invocation)
    requires Fields(run, i) == Fields(other, j)
    ensures run == other && i == j
  {
    var f, g := Fields(run, i), Fields(other, j);
    assert f[0] == g[0] && f[1] == g[1] && f[2] == g[2];
    StageTextIsInjective(i.stage, j.stage);
    assert "repair"[2] != "retry"[2];
    if |f| == 7 {
      assert f[4] == g[4] && f[6] == g[6];
      DecimalIsInjective(i.repair, j.repair);
      DecimalIsInjective(i.retry, j.retry);
    } else if |f| == 5 {
      assert f[3] == g[3] && f[4] == g[4];
      if i.repair > 0 {
        DecimalIsInjective(i.repair, j.repair);
      } else {
        DecimalIsInjective(i.retry, j.retry);
      }
    }
  }

  lemma ContinuationSplits(run: string, i: Invocation, action: string)
    requires Wellformed(run, i)
    ensures Split(ContinuationId(run, i, action)) == Fields(run, i) + (["human"] + Split(action))
  {
    IdIsJoined(run, i);
    FieldsArePlain(run, i);
    SplitFirst("human", action);
    SplitExtended(Fields(run, i), "human:" + action);
    assert "human" + ":" + action == "human:" + action;
    assert ContinuationId(run, i, action) == Join(Fields(run, i)) + ":" + ("human:" + action);
  }

  /** Where the fields of one invocation end, those of another end too or go on with a number. */
  lemma FieldAfter(run: string, i: Invocation, other: string, j: Invocation)
    requires |Fields(run, i)| < |Fields(other, j)|
    ensures Fields(other, j)[|Fields(run, i)|] != "human"
  {
    assert "human"[0] != "repair"[0] && "human"[0] != "retry"[0];
  }

  /** No continuation id is an invocation id, whatever text the human action's id is. */
  lemma ContinuationIsNoInvocation(run: string, i: Invocation, action: string, other: string, j: Invocation)
    requires Wellformed(run, i) && Wellformed(other, j)
    ensures ContinuationId(run, i, action) != InvocationId(other, j)
  {
    ContinuationSplits(run, i, action);
    IdIsJoined(other, j);
    FieldsArePlain(other, j);
    SplitJoined(Fields(other, j));
    assert Split(ContinuationId(run, i, action))[|Fields(run, i)|] == "human";
    if |Fields(run, i)| < |Fields(other, j)| {
      FieldAfter(run, i, other, j);
    }
  }

  /** Continuations of different invocations, or after different actions, have different ids. */
  lemma ContinuationsAreInjective(run: string, i: Invocation, a: string, other: string, j: Invocation, b: string)
    requires Wellformed(run, i) && Wellformed(other, j) && ContinuationId(run, i, a) == ContinuationId(other, j, b)
    ensures run == other && i == j && a == b
  {
    ContinuationSplits(run, i, a);
    ContinuationSplits(other, j, b);
    var f, g := Fields(run, i), Fields(other, j);
    var all := Split(ContinuationId(run, i, a));
    assert all[|f|] == "human" && all[|g|] == "human";
    if |f| < |g| {
      FieldAfter(run, i, other, j);
    } else if |g| < |f| {
      FieldAfter(other, j, run, i);
    }
    assert f == all[..|f|] && g == all[..|g|];
    FieldsAreInjective(run, i, other, j);
    assert InvocationId(run, i) + ":human:" == InvocationId(other, j) + ":human:";
    SameTail(InvocationId(run, i) + ":human:", a, b);
  }

  lemma SameTail(front: string, a: string, b: string)
    requires front + a == front + b
    ensures a == b
  {
    assert a == (front + a)[|front|..];
    assert b == (front + b)[|front|..];
  }
}
