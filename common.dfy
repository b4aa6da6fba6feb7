/**
 * Values shared by both valuation scripts: the replies of the price service,
 * the faults that abort a run, input rows, the dictionaries the scripts build,
 * ASCII lower-casing, and a first-error traversal of the input rows.
 */
module Common {

  datatype Option<T> = None | Some(value: T)

  /** The exceptions that end a valuation run. */
  datatype Fault =
    | FetchFailed(url: string)  // the request failed, or its body is not a JSON object
    | NoResult(url: string)     // KeyError on reply["result"]["price"]
    | ZeroDivision              // 1 / 0.0 in the two-hop bridge price
    | EmptyReduce               // reduce(add, []) without an initial value

  datatype Result<T> = Ok(value: T) | Err(error: Fault)

  /**
   * A parsed reply of the price service: whether the JSON object carries an
   * "error" key, and result.price when present; or no usable JSON object at all.
   */
  datatype Reply = Json(hasError: bool, price: Option<real>) | Unavailable

  /** The price service, as a fixed map from request URL to reply. */
  type Oracle = string -> Reply

  /** One already-parsed line of the holdings file: coin, float(quantity), storage. */
  datatype Row = Row(coin: string, quantity: real, storage: string)

  /** A value stored in one of the scripts' dictionaries. */
  datatype Val = Text(s: string) | Num(x: real)

  type Dict = map<string, Val>

  predicate IsUpper(ch: char) {
    'A' <= ch <= 'Z'
  }

  function LowerChar(ch: char): char {
    if IsUpper(ch) then (ch as int + 32) as char else ch
  }

  /** str.lower() on ASCII text. */
  function Lower(s: string): (r: string)
    ensures |r| == |s|
    ensures forall i :: 0 <= i < |r| ==> !IsUpper(r[i])
    ensures forall i :: 0 <= i < |s| && IsUpper(s[i]) ==> r[i] as int == s[i] as int + 32
    ensures forall i :: 0 <= i < |s| && !IsUpper(s[i]) ==> r[i] == s[i]
  {
    seq(|s|, i requires 0 <= i < |s| => LowerChar(s[i]))
  }

  /** Two strings that start with the same prefix are equal exactly when their tails are. */
  lemma PrefixCancel(a: string, b: string, c: string)
    ensures a + b == a + c <==> b == c
  {
    if a + b == a + c {
      assert b == (a + b)[|a|..];
      assert c == (a + c)[|a|..];
    }
  }

  function MapSeq<A, B>(f: A -> B, s: seq<A>): (r: seq<B>)
    ensures |r| == |s|
    ensures forall i :: 0 <= i < |s| ==> r[i] == f(s[i])
  {
    seq(|s|, i requires 0 <= i < |s| => f(s[i]))
  }

  /**
   * Applies f to every element in order and stops at the first fault, as a
   * Python loop does when a statement in its body raises.
   */
  function Traverse<A, B>(f: A -> Result<B>, s: seq<A>): Result<seq<B>>
    decreases |s|
  {
    if s == [] then Ok([])
    else
      match Traverse(f, s[..|s| - 1])
      case Err(e) => Err(e)
      case Ok(bs) =>
        match f(s[|s| - 1])
        case Err(e) => Err(e)
        case Ok(b) => Ok(bs + [b])
  }

  /** One more successful element: the traversal of s[..k+1] extends that of s[..k] by f's result. */
  lemma TraverseExtend<A, B>(f: A -> Result<B>, s: seq<A>, k: nat, b: B)
    requires k < |s|
    requires Traverse(f, s[..k]).Ok? && f(s[k]) == Ok(b)
    ensures Traverse(f, s[..k + 1]) == Ok(Traverse(f, s[..k]).value + [b])
  {
    assert s[..k + 1][..k] == s[..k];
  }

  /** The first failing element ends the whole traversal with its fault. */
  lemma TraverseStops<A, B>(f: A -> Result<B>, s: seq<A>, k: nat)
    requires k < |s|
    requires Traverse(f, s[..k]).Ok? && f(s[k]).Err?
    ensures Traverse(f, s) == Err(f(s[k]).error)
  {
    assert s[..k + 1][..k] == s[..k];
    TraversePrefixErr(f, s, k + 1);
  }

  /** A fault in a prefix is the fault of the whole traversal: nothing after it runs. */
  lemma {:induction false} TraversePrefixErr<A, B>(f: A -> Result<B>, s: seq<A>, k: nat)
    requires k <= |s|
    requires Traverse(f, s[..k]).Err?
    ensures Traverse(f, s) == Traverse(f, s[..k])
    decreases |s|
  {
    if k < |s| {
      var init := s[..|s| - 1];
      assert init[..k] == s[..k];
      TraversePrefixErr(f, init, k);
    } else {
      assert s[..k] == s;
    }
  }

  /**
   * A traversal succeeds exactly when f succeeds on every element, and then it
   * holds f's results in input order, one per element.
   */
  lemma {:induction false} TraverseOk<A, B>(f: A -> Result<B>, s: seq<A>)
    ensures Traverse(f, s).Ok? <==> forall i :: 0 <= i < |s| ==> f(s[i]).Ok?
    ensures Traverse(f, s).Ok? ==>
              |Traverse(f, s).value| == |s| &&
              forall i :: 0 <= i < |s| ==> f(s[i]) == Ok(Traverse(f, s).value[i])
    decreases |s|
  {
    if s != [] {
      var init := s[..|s| - 1];
      TraverseOk(f, init);
      assert forall i :: 0 <= i < |init| ==> init[i] == s[i];
    }
  }

  /** A failed traversal reports the fault of the first element on which f fails. */
  lemma {:induction false} TraverseErr<A, B>(f: A -> Result<B>, s: seq<A>)
    requires Traverse(f, s).Err?
    ensures exists i :: 0 <= i < |s| && f(s[i]) == Err(Traverse(f, s).error) &&
                        forall j :: 0 <= j < i ==> f(s[j]).Ok?
    decreases |s|
  {
    var init := s[..|s| - 1];
    assert forall i :: 0 <= i < |init| ==> init[i] == s[i];
    if Traverse(f, init).Err? {
      TraverseErr(f, init);
      var i :| 0 <= i < |init| && f(init[i]) == Err(Traverse(f, init).error) &&
               forall j :: 0 <= j < i ==> f(init[j]).Ok?;
      assert f(s[i]) == Err(Traverse(f, s).error);
    } else {
      TraverseOk(f, init);
      assert f(s[|s| - 1]) == Err(Traverse(f, s).error);
    }
  }
}
