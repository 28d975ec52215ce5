/** Types shared by every part of the design-approval model: record ids,
    the Option/Result wrappers, the exceptions the module raises and the
    window actions its wizards return. */
module Common {

  /** An ORM record id: the database hands out positive integers only, so a
      set Many2one is never falsy. */
  type Id = n: int | n > 0 witness 1

  type UserId = Id
  type PartnerId = Id
  type TaskId = Id
  type CategoryId = Id

  /** `fields.Datetime.now()` is an input of the model, never computed. */
  type Timestamp = int

  /** A `fields.Binary` value; the empty sequence is the falsy (unset) value. */
  type Binary = seq<bv8>

  datatype Option<+T> = None | Some(value: T) {
    function GetOr(default: T): T {
      match this
      case Some(v) => v
      case None => default
    }
  }

  datatype Result<+R, +E> = Success(value: R) | Failure(error: E)

  /** The exceptions that can escape an operation of the module. Any of them
      aborts the request, so the ORM rolls every write of it back. */
  datatype OdooError =
    | UserError(message: string)
    | ValidationError(message: string)
      /** A Python name that is not bound when the statement runs. */
    | NameError(name: string)
      /** `create`/`write` with a key that the model does not declare. */
    | InvalidField(field: string, model: string)
      /** A required column left empty when a record is inserted. */
    | RequiredFieldMissing(field: string, model: string)

  /** The client actions the wizards hand back to the web client. */
  datatype Action =
    | ActWindowClose
    | DisplayNotification
    | OpenDesignForm(designId: Id)

  /** Keeps, in order, the elements that satisfy `keep`: the shape of a
      cascade delete on one table. */
  function Filter<T>(s: seq<T>, keep: T -> bool): (r: seq<T>)
    ensures |r| <= |s|
    ensures forall k :: 0 <= k < |r| ==> r[k] in s && keep(r[k])
    ensures forall k :: 0 <= k < |s| && keep(s[k]) ==> s[k] in r
  {
    if s == [] then []
    else
      var rest := Filter(s[1..], keep);
      assert forall k :: 1 <= k < |s| ==> s[k] == s[1..][k - 1];
      if keep(s[0]) then [s[0]] + rest else rest
  }

  /** A row the predicate accepts is kept as many times as it occurs; any
      other row is dropped altogether. */
  lemma {:induction false} FilterCount<T>(s: seq<T>, keep: T -> bool, x: T)
    ensures multiset(Filter(s, keep))[x] == if keep(x) then multiset(s)[x] else 0
  {
    if s != [] {
      FilterCount(s[1..], keep, x);
      assert s == [s[0]] + s[1..];
    }
  }

  /** Filtering two tables laid end to end filters each in turn: the rows
      kept keep their relative order. */
  lemma {:induction false} FilterAppend<T>(s: seq<T>, t: seq<T>, keep: T -> bool)
    ensures Filter(s + t, keep) == Filter(s, keep) + Filter(t, keep)
  {
    if s == [] {
      assert s + t == t;
    } else {
      assert (s + t)[0] == s[0];
      assert (s + t)[1..] == s[1..] + t;
      FilterAppend(s[1..], t, keep);
    }
  }
}
