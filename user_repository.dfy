/**
 * The user store (internal/repository/user_repository.go): the "users" document
 * collection and the translation of backend outcomes into the error taxonomy.
 *
 * The collection is a sequence of documents in the order the backend iterates
 * them. What the backend does on its own is a parameter of each call: whether
 * the call fails with an error other than "not found" (`Link`), the ID that
 * `Add` generates, and which `Next` call of a listing fails.
 */
module Repository {
  import opened Outcomes
  import opened ApiErrors
  import opened Model

  /** The fields of a stored document, or a document that cannot be decoded into a `User`. */
  datatype StoredDoc =
    | Wellformed(name: string, email: string, role: string)
    | Malformed(emailField: Option<string>)  // some field has the wrong type; the "email" field, if it is a string

  datatype Document = Document(id: string, data: StoredDoc)

  /** Whether the backend answers a call, or fails it with an error other than "not found". */
  datatype Link = Up | Down

  const CreateFailed := NewInternalServerError("Failed to create user in database")
  const RetrieveFailed := NewInternalServerError("Failed to retrieve user from database")
  const ProcessFailed := NewInternalServerError("Failed to process user data")
  const ListFailed := NewInternalServerError("Failed to retrieve users")

  /** The text of `iterator.Done`, the error a drained query returns. */
  const IteratorDoneText := "no more items in iterator"
  /** The text `GetUserByEmail` compares the query's error with. */
  const ExpectedDoneText := "iterator: no more items"

  /** How `GetUserByEmail` as written reads the error of its query, by its text. */
  function ClassifyQueryError(text: string, email: string): (e: APIError)
    ensures e == EmailNotFound(email) <==> text == ExpectedDoneText
    ensures e != EmailNotFound(email) ==> e == RetrieveFailed
  {
    if text == ExpectedDoneText then EmailNotFound(email) else RetrieveFailed
  }

  function IdNotFound(id: string): APIError
  {
    NewNotFoundError("User with ID '" + id + "' not found")
  }

  function EmailNotFound(email: string): APIError
  {
    NewNotFoundError("User with email '" + email + "' not found")
  }

  /** The fields `CreateUser` writes: name, email and role; the ID is the document's name, not a field. */
  function Encode(u: User): (d: StoredDoc)
    ensures d.Wellformed? && EmailField(d) == Some(u.email)
  {
    Wellformed(u.name, u.email, u.role)
  }

  /** `DataTo` followed by stamping the document ID onto the user. */
  function Decode(d: Document): (u: Option<User>)
    ensures u.Some? <==> d.data.Wellformed?
    ensures u.Some? ==> u.value.id == d.id && Encode(u.value) == d.data
  {
    match d.data
    case Wellformed(name, email, role) => Some(User(d.id, name, email, role))
    case Malformed(_) => None
  }

  /** What `CreateUser` writes decodes back to the same user, under whatever ID the document gets. */
  lemma DecodeEncode(u: User, id: string)
    ensures Decode(Document(id, Encode(u))) == Some(u.(id := id))
  {
  }

  /** What an equality query on the "email" field sees of a document. */
  function EmailField(d: StoredDoc): Option<string>
  {
    match d
    case Wellformed(_, email, _) => Some(email)
    case Malformed(email) => email
  }

  function HasId(id: string): Document -> bool
  {
    (d: Document) => d.id == id
  }

  function HasEmail(email: string): Document -> bool
  {
    (d: Document) => EmailField(d.data) == Some(email)
  }

  /** Position of the first document that matches, as a query with limit 1 finds it. */
  function First(docs: seq<Document>, matches: Document -> bool): (k: Option<nat>)
    ensures k.Some? ==>
      k.value < |docs| && matches(docs[k.value]) &&
      forall j :: 0 <= j < k.value ==> !matches(docs[j])
    ensures k.None? ==> forall j :: 0 <= j < |docs| ==> !matches(docs[j])
    decreases |docs|
  {
    if |docs| == 0 then None
    else if matches(docs[0]) then Some(0)
    else match First(docs[1..], matches)
      case None => None
      case Some(k) => Some(k + 1)
  }

  /** Document IDs are unique within the collection. */
  ghost predicate UniqueIds(docs: seq<Document>)
  {
    forall i, j :: 0 <= i < j < |docs| ==> docs[i].id != docs[j].id
  }

  /** With unique IDs, the document at position `k` is the only one carrying its ID. */
  lemma OnlyOneWithId(docs: seq<Document>, k: nat)
    requires UniqueIds(docs) && k < |docs|
    ensures forall d :: d in docs && d.id == docs[k].id ==> d == docs[k]
  {
  }

  /** One step of `GetAllUsers` when the cursor yields `docs`: what remains after the first call. */
  function Later(failing: Option<nat>): (rest: Option<nat>)
  {
    match failing
    case None => None
    case Some(k) => if k == 0 then None else Some(k - 1)
  }

  /**
   * The listing `GetAllUsers` returns when the cursor yields `docs` and, if
   * `failing` is `Some(k)`, its k-th `Next` call (counting from 0) fails: the
   * decoded users in order, or the first error met.
   */
  function Drain(docs: seq<Document>, failing: Option<nat>): (r: Result<seq<User>, APIError>)
    ensures r.Ok? ==> |r.value| == |docs|
    ensures r.Err? ==> r == Err(ListFailed) || r == Err(ProcessFailed)
    decreases |docs|
  {
    if failing == Some(0) then Err(ListFailed)
    else if |docs| == 0 then Ok([])
    else match Decode(docs[0])
      case None => Err(ProcessFailed)
      case Some(u) =>
        match Drain(docs[1..], Later(failing))
        case Err(e) => Err(e)
        case Ok(rest) => Ok([u] + rest)
  }

  /** All or nothing: the listing succeeds exactly when every document decodes and no `Next` call fails. */
  lemma {:induction false} DrainAllOrNothing(docs: seq<Document>, failing: Option<nat>)
    ensures Drain(docs, failing).Ok? <==>
      (forall i :: 0 <= i < |docs| ==> docs[i].data.Wellformed?) &&
      (failing.None? || failing.value > |docs|)
    decreases |docs|
  {
    if failing != Some(0) && |docs| > 0 {
      DrainAllOrNothing(docs[1..], Later(failing));
      if docs[0].data.Wellformed? {
        assert forall i :: 1 <= i < |docs| ==> docs[i] == docs[1..][i - 1];
      }
    }
  }

  /** A successful listing holds one user per document, in order, each carrying its document's ID. */
  lemma {:induction false} DrainOnePerDocument(docs: seq<Document>, failing: Option<nat>)
    requires Drain(docs, failing).Ok?
    ensures forall i :: 0 <= i < |docs| ==> Decode(docs[i]) == Some(Drain(docs, failing).value[i])
    ensures forall i :: 0 <= i < |docs| ==> Drain(docs, failing).value[i].id == docs[i].id
    decreases |docs|
  {
    if |docs| > 0 {
      DrainOnePerDocument(docs[1..], Later(failing));
      var users := Drain(docs, failing).value;
      assert forall i :: 1 <= i < |docs| ==> docs[i] == docs[1..][i - 1] && users[i] == users[1..][i - 1];
    }
  }

  /** The part of the cursor's failure still ahead after `i` calls have succeeded. */
  function Shift(failing: Option<nat>, i: nat): (rest: Option<nat>)
  {
    match failing
    case None => None
    case Some(k) => if k < i then None else Some(k - i)
  }

  /** Users already collected, in front of the listing of the rest. */
  function Prepend(users: seq<User>, r: Result<seq<User>, APIError>): Result<seq<User>, APIError>
  {
    match r
    case Ok(rest) => Ok(users + rest)
    case Err(e) => Err(e)
  }

  /**
   * Reading back what `CreateUser` wrote: once the document is in a valid
   * collection, `GetUser` on its ID returns the created user with that ID.
   */
  lemma CreatedUserIsReadable(s: Store, u: User, newId: string)
    requires s.Valid()
    requires Document(newId, Encode(u)) in s.docs
    ensures s.GetUser(newId, Up) == Ok(u.(id := newId))
  {
  }

  /**
   * The lookup by email as written never reports "not found": with no matching
   * document it answers 500 "Failed to retrieve user from database" where the
   * intended lookup answers 404; whenever a document matches, or the backend
   * fails, the two agree.
   */
  lemma EmailLookupAsWrittenDiffers(s: Store, email: string, link: Link)
    ensures s.GetUserByEmailAsWritten(email, link) != Err(EmailNotFound(email))
    ensures s.GetUserByEmail(email, link) == Err(EmailNotFound(email)) ==>
      s.GetUserByEmailAsWritten(email, link) == Err(RetrieveFailed)
    ensures s.GetUserByEmail(email, link) != Err(EmailNotFound(email)) ==>
      s.GetUserByEmailAsWritten(email, link) == s.GetUserByEmail(email, link)
  {
    assert IteratorDoneText != ExpectedDoneText by {
      assert IteratorDoneText[0] != ExpectedDoneText[0];
    }
  }

  /** The input that shows it: in an empty collection, logging in as "ann@x.com" finds no user. */
  lemma EmailLookupCounterexample(s: Store)
    requires s.docs == []
    ensures s.GetUserByEmailAsWritten("ann@x.com", Up) == Err(RetrieveFailed)
    ensures s.GetUserByEmail("ann@x.com", Up) == Err(EmailNotFound("ann@x.com"))
  {
    EmailLookupAsWrittenDiffers(s, "ann@x.com", Up);
  }

  /** Moving one user from the front of the remaining listing onto the collected ones. */
  lemma PrependStep(users: seq<User>, u: User, r: Result<seq<User>, APIError>)
    ensures Prepend(users, match r case Ok(rest) => Ok([u] + rest) case Err(e) => Err(e)) == Prepend(users + [u], r)
  {
    if r.Ok? {
      assert users + ([u] + r.value) == users + [u] + r.value;
    }
  }

  /** The "users" collection. */
  class Store {
    var docs: seq<Document>

    /** The collection's invariant: document IDs are unique. */
    ghost predicate Valid()
      reads this
    {
      UniqueIds(docs)
    }

    constructor ()
      ensures Valid() && docs == []
    {
      docs := [];
    }

    /**
     * `CreateUser`: `Add` writes name, email and role under the generated ID
     * `newId` and fails when the backend does, or when a document with that ID
     * already exists; on success the caller's user comes back with its ID set.
     */
    method CreateUser(u: User, newId: string, link: Link) returns (r: Result<User, APIError>)
      requires Valid()
      modifies this
      ensures Valid()
      ensures r.Ok? <==> link == Up && First(old(docs), HasId(newId)).None?
      ensures r.Ok? ==> r.value == u.(id := newId) && docs == old(docs) + [Document(newId, Encode(u))]
      ensures r.Err? ==> r.error == CreateFailed && docs == old(docs)
    {
      if link == Down || First(docs, HasId(newId)).Some? {
        return Err(CreateFailed);
      }
      assert forall i :: 0 <= i < |docs| ==> docs[i].id != newId;
      docs := docs + [Document(newId, Encode(u))];
      r := Ok(u.(id := newId));
    }

    /**
     * `GetUser`: 404 naming the ID when no document has it, 500 when the backend
     * fails or the document does not decode, otherwise the stored user under its
     * document ID.
     */
    function GetUser(id: string, link: Link): (r: Result<User, APIError>)
      requires Valid()
      reads this
      ensures link == Down ==> r == Err(RetrieveFailed)
      ensures r == Err(IdNotFound(id)) <==> link == Up && forall d :: d in docs ==> d.id != id
      ensures r == Err(ProcessFailed) <==> link == Up && exists d :: d in docs && d.id == id && d.data.Malformed?
      ensures r.Ok? <==> link == Up && exists d :: d in docs && d.id == id && d.data.Wellformed?
      ensures r.Ok? ==> r.value.id == id && Document(id, Encode(r.value)) in docs
    {
      if link == Down then Err(RetrieveFailed)
      else match First(docs, HasId(id))
        case None =>
          assert forall d :: d in docs ==> d.id != id by {
            forall d | d in docs ensures d.id != id {
              var j :| 0 <= j < |docs| && docs[j] == d;
              assert !HasId(id)(docs[j]);
            }
          }
          assert link == Up;
          assert (forall d :: d in docs ==> d.id != id);
          Err(IdNotFound(id))
        case Some(k) =>
          assert link == Up && docs[k] in docs && docs[k].id == id;
          OnlyOneWithId(docs, k);
          match Decode(docs[k])
          case None => Err(ProcessFailed)
          case Some(u) => Ok(u)
    }

    /**
     * `GetUserByEmail`: the first document whose email field equals `email` (the
     * query has limit 1), decoded and stamped with its ID; 404 naming the email
     * when none matches, 500 when the backend fails or the match does not decode.
     */
    function GetUserByEmail(email: string, link: Link): (r: Result<User, APIError>)
      reads this
      ensures link == Down ==> r == Err(RetrieveFailed)
      ensures r == Err(EmailNotFound(email)) <==>
        link == Up && forall d :: d in docs ==> EmailField(d.data) != Some(email)
      ensures r.Ok? <==>
        link == Up && First(docs, HasEmail(email)).Some? &&
        docs[First(docs, HasEmail(email)).value].data.Wellformed?
      ensures r == Err(ProcessFailed) <==>
        link == Up && First(docs, HasEmail(email)).Some? &&
        docs[First(docs, HasEmail(email)).value].data.Malformed?
      ensures r.Ok? ==> r.value.email == email
      ensures r.Ok? ==>
        exists k :: 0 <= k < |docs| && docs[k] == Document(r.value.id, Encode(r.value)) &&
          forall j :: 0 <= j < k ==> EmailField(docs[j].data) != Some(email)
    {
      if link == Down then Err(RetrieveFailed)
      else match First(docs, HasEmail(email))
        case None =>
          assert forall d :: d in docs ==> EmailField(d.data) != Some(email) by {
            forall d | d in docs ensures EmailField(d.data) != Some(email) {
              var j :| 0 <= j < |docs| && docs[j] == d;
              assert !HasEmail(email)(docs[j]);
            }
          }
          assert link == Up;
          Err(EmailNotFound(email))
        case Some(k) =>
          assert link == Up && docs[k] in docs && EmailField(docs[k].data) == Some(email);
          assert forall j :: 0 <= j < k ==> !HasEmail(email)(docs[j]);
          match Decode(docs[k])
          case None => Err(ProcessFailed)
          case Some(u) =>
            assert docs[k] == Document(u.id, Encode(u));
            Ok(u)
    }

    /**
     * `GetUserByEmail` as the code is written. The end of the query's results is
     * recognised by comparing the error's text with "iterator: no more items",
     * but the end-of-results error of the iterator package reads "no more items
     * in iterator"; so when nothing matches, the lookup reports a backend failure.
     */
    function GetUserByEmailAsWritten(email: string, link: Link): (r: Result<User, APIError>)
      reads this
      ensures r.Err? ==> r.error.code == StatusInternalServerError
      ensures r.Ok? ==> r.value.email == email
    {
      if link == Down then Err(RetrieveFailed)
      else match First(docs, HasEmail(email))
        case None => Err(ClassifyQueryError(IteratorDoneText, email))
        case Some(k) =>
          match Decode(docs[k])
          case None => Err(ProcessFailed)
          case Some(u) => Ok(u)
    }

    /**
     * `GetAllUsers`: drains the cursor, decoding each document and stamping its
     * ID; the first iteration or decoding error discards what was collected.
     */
    method GetAllUsers(failing: Option<nat>) returns (r: Result<seq<User>, APIError>)
      ensures r == Drain(docs, failing)
    {
      var users: seq<User> := [];
      var i := 0;
      assert docs[i..] == docs && Shift(failing, i) == failing;
      if Drain(docs, failing).Ok? {
        assert users + Drain(docs, failing).value == Drain(docs, failing).value;
      }
      while true
        invariant 0 <= i <= |docs|
        invariant failing.Some? ==> failing.value >= i
        invariant Drain(docs, failing) == Prepend(users, Drain(docs[i..], Shift(failing, i)))
        decreases |docs| - i
      {
        // iter.Next()
        if failing == Some(i) {
          return Err(ListFailed);
        }
        if i == |docs| {
          break;
        }
        var user := Decode(docs[i]);
        if user.None? {
          return Err(ProcessFailed);
        }
        assert docs[i..][0] == docs[i] && docs[i..][1..] == docs[i + 1..];
        assert Later(Shift(failing, i)) == Shift(failing, i + 1);
        PrependStep(users, user.value, Drain(docs[i + 1..], Shift(failing, i + 1)));
        users := users + [user.value];
        i := i + 1;
      }
      assert Drain(docs[i..], Shift(failing, i)) == Ok([]);
      assert users + [] == users;
      return Ok(users);
    }
  }
}
