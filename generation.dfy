/**
 * Quiz generation: the settings are read once, then each question draws an
 * operator from the included ones and operands from ranges that depend on the
 * operator and on whether negatives are allowed.
 */
module Generation {
  import opened Outcomes
  import opened Arithmetic
  import opened Questions
  import opened Configuration
  import opened Randomness

  /**
   * The questions a draw can produce under cfg, range by range:
   * - "/": a divisor d in [1, maxNum] and a quotient k in [0, maxNum / d - 1],
   *   dividend k * d; with negatives allowed either sign may then be flipped;
   * - otherwise, with negatives allowed: both operands in [-maxNum, maxNum];
   * - otherwise: both operands in [0, maxNum], and a subtraction has its
   *   larger operand first.
   */
  predicate Generable(cfg: Config, q: Question) {
    && Symbol(q.op) in cfg.operations
    && var m := cfg.maxNum;
       if q.op == Div then
         && 1 <= Abs(q.right) <= m
         && Abs(q.left) % Abs(q.right) == 0
         && Abs(q.left) / Abs(q.right) < m / Abs(q.right)
         && (!cfg.allowNegative ==> q.left >= 0 && q.right > 0)
       else if cfg.allowNegative then
         -m <= q.left <= m && -m <= q.right <= m
       else
         && 0 <= q.left <= m && 0 <= q.right <= m
         && (q.op == Sub ==> q.left >= q.right)
  }

  /**
   * Every division question has a divisor of magnitude 1..maxNum that divides
   * the dividend, and a dividend no larger in magnitude than maxNum minus the
   * divisor's magnitude.
   */
  lemma DivisionBounds(cfg: Config, q: Question)
    requires Generable(cfg, q) && q.op == Div
    ensures 1 <= Abs(q.right) <= cfg.maxNum
    ensures q.left % q.right == 0
    ensures Abs(q.left) <= cfg.maxNum - Abs(q.right)
  {
    var d, a := Abs(q.right), Abs(q.left);
    QuotientBound(a, d, cfg.maxNum);
    ExactQuotient(a, d);
    SignedMultiple(q.left, q.right, a / d);
  }

  /** Every generated question has an integer value. */
  lemma GenerableExact(cfg: Config, q: Question)
    requires Generable(cfg, q)
    ensures Exact(q)
  {
    if q.op == Div {
      DivisionBounds(cfg, q);
    }
  }

  /** Every operand of every generated question lies in [-maxNum, maxNum]. */
  lemma GenerableBounded(cfg: Config, q: Question)
    requires Generable(cfg, q)
    ensures Abs(q.left) <= cfg.maxNum && Abs(q.right) <= cfg.maxNum
  {
  }

  /**
   * With negatives disallowed every operand lies in [0, maxNum] and every
   * result, a subtraction's in particular, is at least zero.
   */
  lemma GenerableNonNegative(cfg: Config, q: Question)
    requires Generable(cfg, q) && !cfg.allowNegative
    ensures 0 <= q.left <= cfg.maxNum && 0 <= q.right <= cfg.maxNum
    ensures q.op == Sub ==> q.left >= q.right
    ensures Exact(q) && Value(q) >= 0
  {
  }

  /**
   * The values one pass of the loop body draws, in the order it draws them: the
   * operator, then for "/" the divisor (first), the quotient (second) and the
   * two sign flips, and otherwise the two operands. A flip the pass does not
   * draw is 0.
   */
  datatype Picks = Picks(operator: string, first: int, second: int, flipLeft: int, flipRight: int)

  /** The picks the draws can return under cfg: each value from its numpy range. */
  predicate InRange(cfg: Config, p: Picks) {
    && p.operator in cfg.operations
    && var m := cfg.maxNum;
       if p.operator == "/" then
         && 1 <= p.first < m + 1
         && 0 <= p.second < m / p.first
         && if cfg.allowNegative then 0 <= p.flipLeft < 2 && 0 <= p.flipRight < 2
            else p.flipLeft == 0 && p.flipRight == 0
       else
         && p.flipLeft == 0 && p.flipRight == 0
         && if cfg.allowNegative then -m <= p.first < m + 1 && -m <= p.second < m + 1
            else 0 <= p.first < m + 1 && 0 <= p.second < m + 1
  }

  /** The operands the loop body computes from the picks. */
  function Operands(cfg: Config, p: Picks): (int, int) {
    if p.operator == "/" then
      var num1 := p.second * p.first;
      (if cfg.allowNegative && p.flipLeft != 0 then -1 * num1 else num1,
       if cfg.allowNegative && p.flipRight != 0 then -1 * p.first else p.first)
    else if !cfg.allowNegative && p.operator == "-" && p.first < p.second then
      (p.second, p.first)
    else
      (p.first, p.second)
  }

  /** The question the loop body builds from the picks. */
  function Draw(cfg: Config, p: Picks): Result<Question> {
    var (num1, num2) := Operands(cfg, p);
    NewQuestion(num1, num2, p.operator)
  }

  /** The question built from legal picks: their operands under their operator. */
  lemma DrawLegal(cfg: Config, p: Picks)
    requires IsLegal(p.operator)
    ensures Draw(cfg, p).Ok?
    ensures Draw(cfg, p).value == Question(Operands(cfg, p).0, Operands(cfg, p).1, ParseOp(p.operator).value)
  {
  }

  /** A division from the ranges is generable. */
  lemma DrawDivision(cfg: Config, p: Picks)
    requires InRange(cfg, p) && p.operator == "/"
    ensures Generable(cfg, Question(Operands(cfg, p).0, Operands(cfg, p).1, Div))
  {
    MultipleDivMod(p.second, p.first);
    var q := Question(Operands(cfg, p).0, Operands(cfg, p).1, Div);
    assert Abs(q.left) == p.second * p.first && Abs(q.right) == p.first;
  }

  /** Any other operator from the ranges gives a generable question. */
  lemma DrawOther(cfg: Config, p: Picks, op: Op)
    requires InRange(cfg, p) && op != Div && Symbol(op) == p.operator
    ensures Generable(cfg, Question(Operands(cfg, p).0, Operands(cfg, p).1, op))
  {
    assert p.operator != "/";
    assert op == Sub <==> p.operator == "-" by {
      SymbolInjective(op, Sub);
    }
  }

  /** Picks from the ranges always build a question, and it is generable. */
  lemma DrawGenerable(cfg: Config, p: Picks)
    requires ValidConfig(cfg) && InRange(cfg, p)
    ensures Draw(cfg, p).Ok? && Generable(cfg, Draw(cfg, p).value)
  {
    assert IsLegal(p.operator) by {
      var k :| 0 <= k < |cfg.operations| && cfg.operations[k] == p.operator;
    }
    DrawLegal(cfg, p);
    var op := ParseOp(p.operator).value;
    if op == Div {
      DrawDivision(cfg, p);
    } else {
      DrawOther(cfg, p, op);
    }
  }

  /** A generable division is built from the picks of its divisor, quotient and signs. */
  lemma DivisionDrawn(cfg: Config, q: Question)
    requires Generable(cfg, q) && q.op == Div
    ensures exists p :: InRange(cfg, p) && Draw(cfg, p) == Ok(q)
  {
    var d := Abs(q.right);
    var k := Abs(q.left) / d;
    ExactQuotient(Abs(q.left), d);
    var p := Picks("/", d, k, if cfg.allowNegative && q.left < 0 then 1 else 0,
                   if cfg.allowNegative && q.right < 0 then 1 else 0);
    assert InRange(cfg, p);
    assert Operands(cfg, p) == (q.left, q.right);
    DrawLegal(cfg, p);
  }

  /** Every generable question is built from some picks from the ranges. */
  lemma GenerableDrawn(cfg: Config, q: Question)
    requires Generable(cfg, q)
    ensures exists p :: InRange(cfg, p) && Draw(cfg, p) == Ok(q)
  {
    if q.op == Div {
      DivisionDrawn(cfg, q);
    } else {
      ParseSymbol(q.op);
      var p := Picks(Symbol(q.op), q.left, q.right, 0, 0);
      assert InRange(cfg, p);
      assert Operands(cfg, p) == (q.left, q.right);
      DrawLegal(cfg, p);
    }
  }

  /** The generable questions are exactly the ones the loop body can build. */
  lemma GenerableIffDrawn(cfg: Config, q: Question)
    requires ValidConfig(cfg)
    ensures Generable(cfg, q) <==> exists p :: InRange(cfg, p) && Draw(cfg, p) == Ok(q)
  {
    if Generable(cfg, q) {
      GenerableDrawn(cfg, q);
    } else if p :| InRange(cfg, p) && Draw(cfg, p) == Ok(q) {
      DrawGenerable(cfg, p);
    }
  }

  /**
   * With negatives allowed and a maximum of at least 2, the loop body can
   * build a division of each of the four sign combinations.
   */
  lemma DivisionSignsReachable(cfg: Config, leftNegative: bool, rightNegative: bool)
    requires cfg.allowNegative && "/" in cfg.operations && cfg.maxNum >= 2
    ensures var q := Question(if leftNegative then -1 else 1, if rightNegative then -1 else 1, Div);
            && (exists p :: InRange(cfg, p) && Draw(cfg, p) == Ok(q))
            && (q.left < 0) == leftNegative && (q.right < 0) == rightNegative
  {
    var q := Question(if leftNegative then -1 else 1, if rightNegative then -1 else 1, Div);
    var p := Picks("/", 1, 1, if leftNegative then 1 else 0, if rightNegative then 1 else 0);
    assert InRange(cfg, p) && Draw(cfg, p) == Ok(q);
  }

  /**
   * One pass of the loop body: choose an operator, draw the operands, build the
   * question. The picks it returns are the values drawn.
   */
  method DrawQuestion(cfg: Config) returns (q: Question, picks: Picks)
    requires ValidConfig(cfg)
    ensures InRange(cfg, picks) && Draw(cfg, picks) == Ok(q)
    ensures Generable(cfg, q)
  {
    var operator := Choice(cfg.operations);
    var maxNum := cfg.maxNum;
    var num1, num2;
    if operator == "/" {
      // the divisor first, then a multiple of it for the dividend
      num2 := RandInt(1, maxNum + 1);
      DivModUnique(maxNum, num2, maxNum / num2, maxNum % num2);
      assert maxNum / num2 >= 1;
      var quotient := RandInt(0, maxNum / num2);
      picks := Picks(operator, num2, quotient, 0, 0);
      num1 := quotient * num2;
      if cfg.allowNegative {
        var flip := RandInt(0, 2);
        if flip != 0 {
          num1 := -1 * num1;
        }
        picks := picks.(flipLeft := flip);
        flip := RandInt(0, 2);
        if flip != 0 {
          num2 := -1 * num2;
        }
        picks := picks.(flipRight := flip);
      }
    } else {
      if cfg.allowNegative {
        num1 := RandInt(-1 * maxNum, maxNum + 1);
        num2 := RandInt(-1 * maxNum, maxNum + 1);
        picks := Picks(operator, num1, num2, 0, 0);
      } else {
        num1 := RandInt(0, maxNum + 1);
        num2 := RandInt(0, maxNum + 1);
        picks := Picks(operator, num1, num2, 0, 0);
        if operator == "-" && num1 < num2 {
          num1, num2 := num2, num1;
        }
      }
    }
    assert Operands(cfg, picks) == (num1, num2);
    DrawGenerable(cfg, picks);
    var built := NewQuestion(num1, num2, operator);
    q := built.value;
  }

  /** The quiz: the settings it was generated from and its questions, empty until generated. */
  class Quiz {
    var settings: Settings
    var questions: seq<Question>

    /** Every question the quiz holds has an integer value. */
    ghost predicate Valid()
      reads this
    {
      forall i :: 0 <= i < |questions| ==> Exact(questions[i])
    }

    constructor (settings: Settings)
      ensures this.settings == settings && questions == [] && Valid()
    {
      this.settings := settings;
      questions := [];
    }

    method UpdateSettings(settings: Settings)
      modifies this`settings
      ensures this.settings == settings
    {
      this.settings := settings;
    }

    /**
     * Replaces every question by a fresh draw: afterwards the quiz holds exactly
     * as many questions as the settings ask for, each generable from them.
     */
    method GenerateQuiz()
      requires settings.Valid()
      modifies this`questions
      ensures Valid()
      ensures |questions| == settings.numQuestions
      ensures forall i :: 0 <= i < |questions| ==> Generable(settings.Snapshot(), questions[i])
    {
      questions := [];
      var cfg := Config(settings.GetNumQuestions(), settings.GetMaxNum(),
                        settings.GetOperations(), settings.GetNegative());
      for i := 0 to cfg.numQuestions
        invariant |questions| == i
        invariant forall k :: 0 <= k < i ==> Generable(cfg, questions[k]) && Exact(questions[k])
      {
        var q, picks := DrawQuestion(cfg);
        GenerableExact(cfg, q);
        questions := questions + [q];
      }
    }
  }
}
