/**
 * One quiz question: two integer operands and one of the four operators.
 * The source keeps the operator as its symbol; here the symbol is parsed once,
 * when the question is built, into `Op`.
 */
module Questions {
  import opened Outcomes
  import opened Arithmetic

  datatype Op = Add | Sub | Mul | Div

  /** The operator symbols a question may use, in the order the default settings list them. */
  const AllowedOperations: seq<string> := ["+", "-", "*", "/"]

  predicate IsLegal(s: string) {
    s in AllowedOperations
  }

  function Symbol(op: Op): (s: string)
    ensures IsLegal(s)
  {
    match op
    case Add => "+"
    case Sub => "-"
    case Mul => "*"
    case Div => "/"
  }

  function ParseOp(s: string): (r: Option<Op>)
    ensures r.Some? <==> IsLegal(s)
    ensures r.Some? ==> Symbol(r.value) == s
  {
    if s == "+" then Some(Add)
    else if s == "-" then Some(Sub)
    else if s == "*" then Some(Mul)
    else if s == "/" then Some(Div)
    else None
  }

  /** Each operator has its own symbol, and parsing the symbol gives the operator back. */
  lemma ParseSymbol(op: Op)
    ensures ParseOp(Symbol(op)) == Some(op)
  {
  }

  lemma SymbolInjective(a: Op, b: Op)
    ensures Symbol(a) == Symbol(b) ==> a == b
  {
  }

  datatype Question = Question(left: int, right: int, op: Op)

  /** The constructor: it raises for any symbol outside `AllowedOperations`. */
  function NewQuestion(num1: int, num2: int, operator: string): (r: Result<Question>)
    ensures r.Ok? <==> IsLegal(operator)
    ensures r.Ok? ==> r.value.left == num1 && r.value.right == num2 && Symbol(r.value.op) == operator
    ensures r.Err? ==> r.error == UnsupportedOperator
  {
    match ParseOp(operator)
    case Some(op) => Ok(Question(num1, num2, op))
    case None => Err(UnsupportedOperator)
  }

  /** A question whose value is an integer: a division has a nonzero divisor that divides the dividend. */
  predicate Exact(q: Question) {
    q.op == Div ==> q.right != 0 && q.left % q.right == 0
  }

  /** The result of the question; a division is the exact quotient. */
  function Value(q: Question): (r: int)
    requires Exact(q)
    ensures q.op == Div ==> r * q.right == q.left
  {
    match q.op
    case Add => q.left + q.right
    case Sub => q.left - q.right
    case Mul => q.left * q.right
    case Div => q.left / q.right
  }

  /**
   * Whether the integer answer a equals the result of q. The source divides
   * with true division, so for "/" an integer matches exactly when it times
   * the divisor is the dividend; an inexact quotient matches no integer.
   */
  predicate Answers(q: Question, a: int) {
    match q.op
    case Div => q.right != 0 && a * q.right == q.left
    case _ => a == Value(q)
  }

  /** On a question with an integer result, an answer is right exactly when it is that result. */
  lemma AnswersIffValue(q: Question, a: int)
    requires Exact(q)
    ensures Answers(q, a) <==> a == Value(q)
  {
  }

  /** A question that is not exact has no integer answer. */
  lemma InexactHasNoAnswer(q: Question, a: int)
    requires !Exact(q)
    ensures !Answers(q, a)
  {
    if q.op == Div && q.right != 0 && a * q.right == q.left {
      MultipleDivMod(a, q.right);
      assert false;
    }
  }
}
