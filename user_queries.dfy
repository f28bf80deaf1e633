/**
 * The database-backed user handlers (handlers/user_handlers.go): the SQL text and
 * argument list each handler sends, and the status each one answers with for a
 * given database outcome. Executing a statement is not modelled: what the
 * database returns (an error, the scanned rows, the number of rows affected) is
 * a parameter.
 *
 * These handlers read a user record with `AvatarURL` and `IsPublic` fields and an
 * update request with `AvatarURL` and `IsPublic` and without `Email` or `Skills`;
 * models/user.go declares neither, so the records below follow the fields the
 * handlers read.
 */
module UserQueries {
  import opened Wrappers
  import opened Numbers
  import opened Models

  /** A value bound to a `$n` placeholder. */
  datatype SqlArg = TextArg(text: string) | BoolArg(flag: bool)

  /** A statement and the values bound to its placeholders, `$1` first. */
  datatype Statement = Statement(text: string, args: seq<SqlArg>)

  /** The body of PUT /users/:id as these handlers read it; `None` is a field left out. */
  datatype UserPatch = UserPatch(
    name: Option<string>,
    role: Option<string>,
    avatarUrl: Option<string>,
    bio: Option<string>,
    website: Option<string>,
    location: Option<string>,
    isPublic: Option<bool>)

  /** The body of POST /users as these handlers read it. */
  datatype UserInsert = UserInsert(
    email: string,
    name: string,
    role: string,
    avatarUrl: string,
    bio: string,
    website: string,
    location: string,
    isPublic: bool)

  /** One row of the `users` table as the handlers scan it. */
  datatype StoredUser = StoredUser(
    id: int,
    email: string,
    name: string,
    role: string,
    avatarUrl: string,
    bio: string,
    website: string,
    location: string,
    skills: seq<string>,
    isPublic: bool,
    createdAt: Time,
    updatedAt: Time)

  /** The reply of GET /users. */
  datatype UserList = UserList(data: seq<StoredUser>, count: int)

  // ---------------------------------------------------------------------------
  // Placeholders
  // ---------------------------------------------------------------------------

  predicate NoDollar(s: string) {
    forall i :: 0 <= i < |s| ==> s[i] != '$'
  }

  /** Text that cannot extend a digit run ending just before it. */
  predicate StartsClear(s: string) {
    s == [] || !IsDigit(s[0])
  }

  /** The length of the run of digits at the start of `s`. */
  function DigitRun(s: string): (n: nat)
    ensures n <= |s| && AllDigits(s[..n])
    ensures n < |s| ==> !IsDigit(s[n])
  {
    if s == [] || !IsDigit(s[0]) then 0
    else
      var n := 1 + DigitRun(s[1..]);
      assert forall i :: 1 <= i < n ==> s[..n][i] == s[1..][..n - 1][i - 1];
      n
  }

  /**
   * The numbers of the positional parameters in a statement, in order of
   * appearance: each `$` followed by one or more digits names one.
   */
  function Placeholders(s: string): seq<nat>
    decreases |s|
  {
    if s == [] then []
    else
      var n := DigitRun(s[1..]);
      if s[0] == '$' && n > 0 then [DigitsValue(s[1..][..n])] + Placeholders(s[1..][n..])
      else Placeholders(s[1..])
  }

  /** `1, 2, …, n`: the numbering a statement with `n` arguments must use. */
  function Numbered(n: nat): (r: seq<nat>)
    ensures |r| == n && forall i :: 0 <= i < n ==> r[i] == i + 1
  {
    seq(n, i requires 0 <= i < n => i + 1)
  }

  /** Numbering one more value appends its number. */
  lemma NumberedSnoc(k: nat)
    requires k >= 1
    ensures Numbered(k - 1) + [k] == Numbered(k)
  {
    var extended, numbered := Numbered(k - 1) + [k], Numbered(k);
    forall i | 0 <= i < k
      ensures extended[i] == numbered[i]
    {
      if i < k - 1 {
        assert extended[i] == Numbered(k - 1)[i];
      }
    }
  }

  lemma {:induction false} NoDollarNoPlaceholders(s: string)
    requires NoDollar(s)
    ensures Placeholders(s) == []
    decreases |s|
  {
    if s != [] {
      assert NoDollar(s[1..]);
      NoDollarNoPlaceholders(s[1..]);
    }
  }

  lemma {:induction false} AllDigitsRun(s: string)
    requires AllDigits(s)
    ensures DigitRun(s) == |s|
    decreases |s|
  {
    if s != [] {
      assert AllDigits(s[1..]);
      AllDigitsRun(s[1..]);
    }
  }

  lemma {:induction false} DigitRunAppend(a: string, b: string)
    requires StartsClear(b)
    ensures DigitRun(a + b) == DigitRun(a)
    decreases |a|
  {
    if a != [] {
      assert (a + b)[1..] == a[1..] + b;
      if IsDigit(a[0]) {
        DigitRunAppend(a[1..], b);
      }
    }
  }

  /** Placeholders are found piecewise when the second piece cannot continue a number. */
  lemma {:induction false} PlaceholdersAppend(a: string, b: string)
    requires StartsClear(b)
    ensures Placeholders(a + b) == Placeholders(a) + Placeholders(b)
    decreases |a|
  {
    if a == [] {
      assert a + b == b;
    } else {
      var ab, rest := a + b, a[1..];
      assert ab[0] == a[0];
      assert ab[1..] == rest + b;
      DigitRunAppend(rest, b);
      var n := DigitRun(rest);
      if a[0] == '$' && n > 0 {
        assert ab[1..][..n] == rest[..n];
        assert ab[1..][n..] == rest[n..] + b;
        PlaceholdersAppend(rest[n..], b);
      } else {
        PlaceholdersAppend(rest, b);
      }
    }
  }

  lemma PlaceholderOfNumber(k: nat)
    ensures Placeholders("$" + Itoa(k)) == [k]
  {
    var digits := Itoa(k);
    var s := "$" + digits;
    assert s[1..] == digits;
    AllDigitsRun(digits);
    assert digits[..|digits|] == digits;
    assert digits[|digits|..] == [];
  }

  // ---------------------------------------------------------------------------
  // Statement text
  // ---------------------------------------------------------------------------

  /** The columns every user query selects or returns, in scan order. */
  const UserColumns: string :=
    "id, email, name, role, " + "avatar_url, bio, website, " + "location, skills, is_public, " + "created_at, updated_at"

  const SelectUsers: string := "SELECT " + UserColumns + " FROM users WHERE 1=1"
  const PublicOnly: string := " AND is_public = $1"
  const NewestFirst: string := " ORDER BY created_at DESC"
  const SelectUserById: string := "SELECT " + UserColumns + " FROM users WHERE id = $1"
  const UpdatePrefix: string := "UPDATE users SET updated_at = NOW()"
  const Returning: string := " RETURNING " + UserColumns
  const DeleteUserById: string := "DELETE FROM users WHERE id = $1"

  /** `$1, $2, …, $n`: the value list of an insert of `n` values. */
  function ValueList(n: nat): (s: string)
    ensures n > 0 ==> |s| > 0 && s[0] == '$'
  {
    if n == 0 then ""
    else if n == 1 then "$" + Itoa(1)
    else ValueList(n - 1) + NextValue(n)
  }

  /** The entry for the `n`-th value after the first: a comma, then `$n`. */
  function NextValue(n: nat): string {
    ", " + ("$" + Itoa(n))
  }

  /** The insert is a raw string: each line starts with a newline and two tabs. */
  const InsertHead: string :=
    "\n\t\tINSERT INTO users (" + "email, name, role, avatar_url, " + "bio, website, location, skills, is_public" +
    ")\n\t\tVALUES ("
  const InsertTail: string := ")\n\t\tRETURNING id, created_at, updated_at"
  const InsertUser: string := InsertHead + ValueList(9) + InsertTail

  lemma NoDollarConcat(a: string, b: string)
    requires NoDollar(a) && NoDollar(b)
    ensures NoDollar(a + b)
  {
    assert forall i :: |a| <= i < |a + b| ==> (a + b)[i] == b[i - |a|];
  }

  lemma ConstantTextsClear()
    ensures NoDollar(SelectUsers) && NoDollar(NewestFirst) && NoDollar(UpdatePrefix) && NoDollar(Returning)
  {
    assert NoDollar("id, email, name, role, ") && NoDollar("avatar_url, bio, website, ");
    assert NoDollar("location, skills, is_public, ") && NoDollar("created_at, updated_at");
    NoDollarConcat("id, email, name, role, ", "avatar_url, bio, website, ");
    NoDollarConcat("id, email, name, role, " + "avatar_url, bio, website, ", "location, skills, is_public, ");
    NoDollarConcat("id, email, name, role, " + "avatar_url, bio, website, " + "location, skills, is_public, ",
                   "created_at, updated_at");
    assert NoDollar("SELECT ") && NoDollar(" FROM users WHERE 1=1") && NoDollar(" RETURNING ");
    NoDollarConcat("SELECT ", UserColumns);
    NoDollarConcat("SELECT " + UserColumns, " FROM users WHERE 1=1");
    NoDollarConcat(" RETURNING ", UserColumns);
  }

  // ---------------------------------------------------------------------------
  // The update statement
  // ---------------------------------------------------------------------------

  /** One `, column = $k` assignment of the update statement. */
  function Clause(column: string, k: nat): (c: string)
    ensures |c| > 0 && c[0] == ','
  {
    ", " + column + " = $" + Itoa(k)
  }

  /** One `if req.X != nil` block of UpdateUser: the column it sets, whether the field was sent, the value it binds. */
  datatype Assignment = Assignment(column: string, present: bool, value: SqlArg)

  /** The seven blocks, in the handler's order. */
  function Assignments(p: UserPatch): (fs: seq<Assignment>)
    ensures |fs| == 7
  {
    [Assignment("name", p.name.Some?, TextArg(p.name.GetOr(""))),
     Assignment("role", p.role.Some?, TextArg(p.role.GetOr(""))),
     Assignment("avatar_url", p.avatarUrl.Some?, TextArg(p.avatarUrl.GetOr(""))),
     Assignment("bio", p.bio.Some?, TextArg(p.bio.GetOr(""))),
     Assignment("website", p.website.Some?, TextArg(p.website.GetOr(""))),
     Assignment("location", p.location.Some?, TextArg(p.location.GetOr(""))),
     Assignment("is_public", p.isPublic.Some?, BoolArg(p.isPublic.GetOr(false)))]
  }

  /** No column name holds a placeholder. */
  lemma ColumnsClear(p: UserPatch)
    ensures forall i :: 0 <= i < |Assignments(p)| ==> NoDollar(Assignments(p)[i].column)
  {
  }

  /** The statement text built so far and the number of the next placeholder. */
  datatype Draft = Draft(query: string, argIndex: nat)

  /** One block: an assignment on the next placeholder when the field is present, nothing otherwise. */
  function Step(d: Draft, a: Assignment): Draft {
    if a.present then Draft(d.query + Clause(a.column, d.argIndex), d.argIndex + 1) else d
  }

  /** A run of blocks, in order. */
  function AssignAll(d: Draft, fs: seq<Assignment>): Draft
    decreases |fs|
  {
    if fs == [] then d else AssignAll(Step(d, fs[0]), fs[1..])
  }

  /** The values a run of blocks binds: one per present field, in order. */
  function Bound(fs: seq<Assignment>): seq<SqlArg>
    decreases |fs|
  {
    if fs == [] then [] else (if fs[0].present then [fs[0].value] else []) + Bound(fs[1..])
  }

  /** The draft after the seven blocks: the `updated_at` refresh, then the present fields from `$1`. */
  function UpdateDraft(p: UserPatch): Draft {
    AssignAll(Draft(UpdatePrefix, 1), Assignments(p))
  }

  /** The end of the update statement: the id's condition on placeholder `$k`, then the returned columns. */
  function WhereId(k: nat): string {
    " WHERE id = $" + Itoa(k) + Returning
  }

  /** The whole update statement for a patch. */
  function UpdateText(p: UserPatch): string {
    var d := UpdateDraft(p);
    d.query + WhereId(d.argIndex)
  }

  /** The values the update statement binds: the present fields' values, then the id text. */
  function UpdateArgs(p: UserPatch, id: string): seq<SqlArg> {
    Bound(Assignments(p)) + [TextArg(id)]
  }

  /** Each block that binds a value advances the counter by one, and no other does. */
  lemma {:induction false} CounterTracksBound(d: Draft, fs: seq<Assignment>)
    ensures AssignAll(d, fs).argIndex == d.argIndex + |Bound(fs)|
    decreases |fs|
  {
    if fs != [] {
      CounterTracksBound(Step(d, fs[0]), fs[1..]);
    }
  }

  /** Exactly the present fields' values are bound. */
  lemma {:induction false} BoundArePresentValues(fs: seq<Assignment>)
    ensures forall i :: 0 <= i < |fs| && fs[i].present ==> fs[i].value in Bound(fs)
    ensures forall x :: x in Bound(fs) ==> exists i :: 0 <= i < |fs| && fs[i].present && fs[i].value == x
    decreases |fs|
  {
    if fs != [] {
      BoundArePresentValues(fs[1..]);
      assert forall i :: 1 <= i < |fs| ==> fs[i] == fs[1..][i - 1];
    }
  }

  lemma {:induction false} AbsentBlocksChangeNothing(d: Draft, fs: seq<Assignment>)
    requires forall i :: 0 <= i < |fs| ==> !fs[i].present
    ensures AssignAll(d, fs) == d && Bound(fs) == []
    decreases |fs|
  {
    if fs != [] {
      AbsentBlocksChangeNothing(d, fs[1..]);
    }
  }

  lemma ClausePlaceholders(column: string, k: nat)
    requires NoDollar(column)
    ensures Placeholders(Clause(column, k)) == [k]
  {
    var head := ", " + column + " = ";
    assert Clause(column, k) == head + ("$" + Itoa(k));
    assert NoDollar(", ") && NoDollar(" = ");
    assert NoDollar(head);
    NoDollarNoPlaceholders(head);
    PlaceholdersAppend(head, "$" + Itoa(k));
    PlaceholderOfNumber(k);
  }

  /** The draft's text holds placeholders `$1 … $(argIndex - 1)`, in order, and no other. */
  predicate NumberedDraft(d: Draft) {
    1 <= d.argIndex && Placeholders(d.query) == Numbered(d.argIndex - 1)
  }

  /** Text holding `$1 … $(k - 1)`, followed by text holding only `$k`, holds `$1 … $k`. */
  lemma AppendNumber(query: string, k: nat, tail: string)
    requires 1 <= k && Placeholders(query) == Numbered(k - 1)
    requires StartsClear(tail) && Placeholders(tail) == [k]
    ensures Placeholders(query + tail) == Numbered(k)
  {
    PlaceholdersAppend(query, tail);
    NumberedSnoc(k);
  }

  /** Blocks keep the placeholders numbered without gaps. */
  lemma {:induction false} AssignAllPlaceholders(d: Draft, fs: seq<Assignment>)
    requires NumberedDraft(d)
    requires forall i :: 0 <= i < |fs| ==> NoDollar(fs[i].column)
    ensures NumberedDraft(AssignAll(d, fs))
    decreases |fs|
  {
    if fs != [] {
      if fs[0].present {
        ClausePlaceholders(fs[0].column, d.argIndex);
        AppendNumber(d.query, d.argIndex, Clause(fs[0].column, d.argIndex));
      }
      assert forall i :: 0 <= i < |fs[1..]| ==> fs[1..][i] == fs[i + 1];
      AssignAllPlaceholders(Step(d, fs[0]), fs[1..]);
    }
  }

  /** Blocks only ever append to the text. */
  lemma {:induction false} AssignAllExtends(d: Draft, fs: seq<Assignment>)
    ensures |AssignAll(d, fs).query| >= |d.query| && AssignAll(d, fs).query[..|d.query|] == d.query
    decreases |fs|
  {
    if fs != [] {
      var e := Step(d, fs[0]);
      assert |e.query| >= |d.query| && e.query[..|d.query|] == d.query;
      AssignAllExtends(e, fs[1..]);
      assert AssignAll(d, fs).query[..|d.query|] == AssignAll(e, fs[1..]).query[..|e.query|][..|d.query|];
    }
  }

  /** The text depends on which fields are present, never on their values. */
  lemma {:induction false} AssignAllIgnoresValues(d: Draft, fs: seq<Assignment>, gs: seq<Assignment>)
    requires |fs| == |gs|
    requires forall i :: 0 <= i < |fs| ==> fs[i].column == gs[i].column && fs[i].present == gs[i].present
    ensures AssignAll(d, fs) == AssignAll(d, gs)
    decreases |fs|
  {
    if fs != [] {
      assert Step(d, fs[0]) == Step(d, gs[0]);
      AssignAllIgnoresValues(Step(d, fs[0]), fs[1..], gs[1..]);
    }
  }

  /** A single `$k` between two stretches of text without placeholders. */
  lemma NumberBetween(head: string, k: nat, tail: string)
    requires NoDollar(head) && NoDollar(tail) && StartsClear(tail)
    ensures Placeholders(head + ("$" + Itoa(k)) + tail) == [k]
  {
    NoDollarNoPlaceholders(head);
    NoDollarNoPlaceholders(tail);
    PlaceholderOfNumber(k);
    PlaceholdersAppend(head, "$" + Itoa(k));
    PlaceholdersAppend(head + ("$" + Itoa(k)), tail);
  }

  lemma WhereTextSplit(n: nat)
    ensures WhereId(n) == " WHERE id = " + ("$" + Itoa(n)) + Returning
  {
  }

  lemma WhereStartsClear(n: nat)
    ensures StartsClear(WhereId(n))
  {
    WhereTextSplit(n);
  }

  /** The id's placeholder: the only one after the assignments. */
  lemma WherePlaceholders(n: nat)
    ensures Placeholders(WhereId(n)) == [n]
  {
    WhereTextSplit(n);
    WhereSplitPlaceholders(n);
  }

  lemma WhereSplitPlaceholders(n: nat)
    ensures Placeholders(" WHERE id = " + ("$" + Itoa(n)) + Returning) == [n]
  {
    ConstantTextsClear();
    assert NoDollar(" WHERE id = ");
    NumberBetween(" WHERE id = ", n, Returning);
  }

  /** Closing a numbered draft with the id's condition adds the last placeholder. */
  lemma FinishPlaceholders(d: Draft)
    requires NumberedDraft(d)
    ensures Placeholders(d.query + WhereId(d.argIndex)) == Numbered(d.argIndex)
  {
    WherePlaceholders(d.argIndex);
    WhereStartsClear(d.argIndex);
    AppendNumber(d.query, d.argIndex, WhereId(d.argIndex));
  }

  /**
   * The update statement numbers its placeholders `$1 … $(n + 1)` without gaps
   * and binds exactly `n + 1` values, where `n` is the number of fields sent:
   * every placeholder has a value and every value a placeholder, the last one
   * the id.
   */
  lemma UpdatePlaceholders(p: UserPatch, id: string)
    ensures Placeholders(UpdateText(p)) == Numbered(|UpdateArgs(p, id)|)
    ensures UpdateArgs(p, id)[|UpdateArgs(p, id)| - 1] == TextArg(id)
  {
    ConstantTextsClear();
    NoDollarNoPlaceholders(UpdatePrefix);
    ColumnsClear(p);
    AssignAllPlaceholders(Draft(UpdatePrefix, 1), Assignments(p));
    CounterTracksBound(Draft(UpdatePrefix, 1), Assignments(p));
    FinishPlaceholders(UpdateDraft(p));
  }

  /** Every field sent has its value bound. */
  lemma UpdateBindsPresentFields(p: UserPatch, id: string)
    ensures p.name.Some? ==> TextArg(p.name.value) in UpdateArgs(p, id)
    ensures p.role.Some? ==> TextArg(p.role.value) in UpdateArgs(p, id)
    ensures p.avatarUrl.Some? ==> TextArg(p.avatarUrl.value) in UpdateArgs(p, id)
    ensures p.bio.Some? ==> TextArg(p.bio.value) in UpdateArgs(p, id)
    ensures p.website.Some? ==> TextArg(p.website.value) in UpdateArgs(p, id)
    ensures p.location.Some? ==> TextArg(p.location.value) in UpdateArgs(p, id)
    ensures p.isPublic.Some? ==> BoolArg(p.isPublic.value) in UpdateArgs(p, id)
  {
    var fs := Assignments(p);
    BoundArePresentValues(fs);
    assert fs[0].present ==> fs[0].value in Bound(fs);
    assert fs[1].present ==> fs[1].value in Bound(fs);
    assert fs[2].present ==> fs[2].value in Bound(fs);
    assert fs[3].present ==> fs[3].value in Bound(fs);
    assert fs[4].present ==> fs[4].value in Bound(fs);
    assert fs[5].present ==> fs[5].value in Bound(fs);
    assert fs[6].present ==> fs[6].value in Bound(fs);
  }

  /** Two patches with the same fields present produce the same text, whatever the values. */
  lemma UpdateTextIgnoresValues(p: UserPatch, q: UserPatch)
    requires p.name.Some? == q.name.Some? && p.role.Some? == q.role.Some?
    requires p.avatarUrl.Some? == q.avatarUrl.Some? && p.bio.Some? == q.bio.Some?
    requires p.website.Some? == q.website.Some? && p.location.Some? == q.location.Some?
    requires p.isPublic.Some? == q.isPublic.Some?
    ensures UpdateText(p) == UpdateText(q)
  {
    AssignAllIgnoresValues(Draft(UpdatePrefix, 1), Assignments(p), Assignments(q));
  }

  /** The empty patch still sets `updated_at`, and binds only the id, to `$1`. */
  lemma EmptyPatchTouchesUpdatedAt(id: string)
    ensures UpdateText(UserPatch(None, None, None, None, None, None, None)) == UpdatePrefix + WhereId(1)
    ensures UpdateArgs(UserPatch(None, None, None, None, None, None, None), id) == [TextArg(id)]
  {
    var p := UserPatch(None, None, None, None, None, None, None);
    AbsentBlocksChangeNothing(Draft(UpdatePrefix, 1), Assignments(p));
  }

  /** Every statement UpdateUser sends starts with the `updated_at` refresh. */
  lemma UpdateTextStartsWithRefresh(p: UserPatch)
    ensures |UpdateText(p)| >= |UpdatePrefix| && UpdateText(p)[..|UpdatePrefix|] == UpdatePrefix
  {
    AssignAllExtends(Draft(UpdatePrefix, 1), Assignments(p));
    var d := UpdateDraft(p);
    assert (d.query + WhereId(d.argIndex))[..|UpdatePrefix|] == d.query[..|UpdatePrefix|];
  }

  /** The seven `if` blocks, run over the blocks' data in order from a starting draft. */
  method RunAssignments(start: Draft, fields: seq<Assignment>) returns (query: string, args: seq<SqlArg>, argIndex: nat)
    ensures Draft(query, argIndex) == AssignAll(start, fields)
    ensures args == Bound(fields)
  {
    query, args, argIndex := start.query, [], start.argIndex;
    for j := 0 to |fields|
      invariant AssignAll(Draft(query, argIndex), fields[j..]) == AssignAll(start, fields)
      invariant args + Bound(fields[j..]) == Bound(fields)
    {
      assert fields[j..][1..] == fields[j + 1..];
      var f := fields[j];
      ghost var rest := Bound(fields[j + 1..]);
      assert Bound(fields[j..]) == (if f.present then [f.value] else []) + rest;
      if f.present {
        query := query + Clause(f.column, argIndex);
        assert args + [f.value] + rest == args + ([f.value] + rest);
        args := args + [f.value];
        argIndex := argIndex + 1;
      } else {
        assert [] + rest == rest;
      }
    }
  }

  /**
   * UpdateUser's statement: `updated_at` is always refreshed, then one numbered
   * assignment per present field, in a fixed order, then the id on the next
   * placeholder.
   */
  method BuildUpdateUser(p: UserPatch, id: string) returns (stmt: Statement)
    ensures stmt.text == UpdateText(p)
    ensures stmt.args == UpdateArgs(p, id)
  {
    var query, args, argIndex := RunAssignments(Draft(UpdatePrefix, 1), Assignments(p));
    query := query + WhereId(argIndex);
    args := args + [TextArg(id)];
    stmt := Statement(query, args);
  }

  /** GetUsers' statement: the public-only condition and its one argument only for the value "true". */
  method BuildListQuery(isPublic: string) returns (stmt: Statement)
    ensures stmt.text == SelectUsers + (if isPublic == "true" then PublicOnly else "") + NewestFirst
    ensures stmt.args == if isPublic == "true" then [BoolArg(true)] else []
    ensures Placeholders(stmt.text) == Numbered(|stmt.args|)
  {
    var query := SelectUsers;
    var args: seq<SqlArg> := [];
    if isPublic == "true" {
      query := query + PublicOnly;
      args := args + [BoolArg(true)];
    } else {
      assert query == SelectUsers + "";
    }
    query := query + NewestFirst;
    stmt := Statement(query, args);
    ListPlaceholders(isPublic == "true");
  }

  lemma PublicOnlyPlaceholders()
    ensures Placeholders(PublicOnly) == [1]
  {
    var head := " AND is_public = ";
    assert NoDollar(head);
    assert PublicOnly == head + ("$" + Itoa(1)) + "";
    NumberBetween(head, 1, "");
  }

  lemma ListPlaceholders(publicOnly: bool)
    ensures Placeholders(SelectUsers + (if publicOnly then PublicOnly else "") + NewestFirst) ==
            Numbered(if publicOnly then 1 else 0)
  {
    ConstantTextsClear();
    if publicOnly {
      PublicOnlyPlaceholders();
      FramedPlaceholders(SelectUsers, PublicOnly, 1, NewestFirst);
    } else {
      FramedPlaceholders(SelectUsers, "", 0, NewestFirst);
    }
  }

  /** The value list of `n` values names `$1 … $n`, in order. */
  lemma {:induction false} ValueListPlaceholders(n: nat)
    ensures Placeholders(ValueList(n)) == Numbered(n)
  {
    if n == 1 {
      PlaceholderOfNumber(1);
    } else if n > 1 {
      ValueListPlaceholders(n - 1);
      NextValuePlaceholders(n);
      AppendNumber(ValueList(n - 1), n, NextValue(n));
    }
  }

  lemma NextValuePlaceholders(n: nat)
    ensures Placeholders(NextValue(n)) == [n]
  {
    NumberBetween(", ", n, "");
    assert ", " + ("$" + Itoa(n)) + "" == NextValue(n);
  }

  /** Placeholder numbering of a fixed head, a numbered middle and a fixed tail. */
  lemma FramedPlaceholders(head: string, middle: string, m: nat, tail: string)
    requires NoDollar(head) && NoDollar(tail) && StartsClear(middle) && StartsClear(tail)
    requires Placeholders(middle) == Numbered(m)
    ensures Placeholders(head + middle + tail) == Numbered(m)
  {
    NoDollarNoPlaceholders(head);
    NoDollarNoPlaceholders(tail);
    PlaceholdersAppend(head, middle);
    PlaceholdersAppend(head + middle, tail);
  }

  // ---------------------------------------------------------------------------
  // Replies
  // ---------------------------------------------------------------------------

  /** The users a scan of `rows` yields: rows that fail to scan are skipped, skills are reset to empty. */
  function Scanned(rows: seq<Option<StoredUser>>): (users: seq<StoredUser>)
    ensures |users| <= |rows|
    ensures forall u :: u in users <==> exists i :: 0 <= i < |rows| && rows[i].Some? && u == rows[i].value.(skills := [])
    ensures (forall i :: 0 <= i < |rows| ==> rows[i].Some?) ==> |users| == |rows|
  {
    if rows == [] then []
    else
      var init := Scanned(rows[..|rows| - 1]);
      assert forall i :: 0 <= i < |rows| - 1 ==> rows[..|rows| - 1][i] == rows[i];
      match rows[|rows| - 1]
      case None => init
      case Some(u) => init + [u.(skills := [])]
  }

  /** The `rows.Next()` loop of GetUsers. */
  method CollectUsers(rows: seq<Option<StoredUser>>) returns (users: seq<StoredUser>)
    ensures users == Scanned(rows)
  {
    users := [];
    for i := 0 to |rows|
      invariant users == Scanned(rows[..i])
    {
      assert rows[..i + 1][..i] == rows[..i];
      match rows[i]
      case None =>
      case Some(u) =>
        users := users + [u.(skills := [])];
    }
    assert rows[..|rows|] == rows;
  }

  /**
   * GET /users against the database: the statement sent, then 500 "Failed to
   * fetch users" when the query fails, or 200 with the scanned users and their
   * number.
   */
  method GetUsers(isPublic: string, queryFailed: bool, rows: seq<Option<StoredUser>>)
    returns (stmt: Statement, r: Reply<UserList>)
    ensures stmt.text == SelectUsers + (if isPublic == "true" then PublicOnly else "") + NewestFirst
    ensures stmt.args == if isPublic == "true" then [BoolArg(true)] else []
    ensures Placeholders(stmt.text) == Numbered(|stmt.args|)
    ensures queryFailed <==> r == Failure(StatusInternalServerError, Message("Failed to fetch users"))
    ensures !queryFailed ==> r == Success(StatusOK, UserList(Scanned(rows), |Scanned(rows)|))
  {
    stmt := BuildListQuery(isPublic);
    if queryFailed {
      return stmt, Failure(StatusInternalServerError, Message("Failed to fetch users"));
    }
    var users := CollectUsers(rows);
    r := Success(StatusOK, UserList(users, |users|));
  }

  /**
   * GET /users/:id against the database: the path text is bound unparsed, so a
   * malformed id is never a 400; any failure to read the row is a 404.
   */
  function GetUserByID(idText: string, row: Option<StoredUser>): (result: (Statement, Reply<StoredUser>))
    ensures result.0 == Statement(SelectUserById, [TextArg(idText)])
    ensures result.1.code != StatusBadRequest
    ensures row.None? <==> result.1 == Failure(StatusNotFound, Message("User not found"))
    ensures row.Some? ==> result.1.Success? && result.1.code == StatusOK &&
                          result.1.value == row.value.(skills := [])
  {
    var stmt := Statement(SelectUserById, [TextArg(idText)]);
    match row
    case None => (stmt, Failure(StatusNotFound, Message("User not found")))
    case Some(u) => (stmt, Success(StatusOK, u.(skills := [])))
  }

  /**
   * The binding rules of the create-user request body (name, email and role
   * required, the email well formed), applied to the fields these handlers read.
   */
  predicate ValidUserInsert(r: UserInsert, isEmail: string -> bool) {
    ValidCreateUser(CreateUserRequest(r.name, r.email, r.role, r.avatarUrl, r.bio, r.website, r.location, []), isEmail)
  }

  /**
   * POST /users against the database: 400 when the body does not bind (no
   * statement is sent), otherwise the insert; 500 "Failed to create user" when
   * it fails, otherwise 201 with the request's fields, empty skills, and the id
   * and timestamps the database assigned.
   */
  function CreateUser(body: Option<UserInsert>, isEmail: string -> bool, inserted: Option<(int, Time, Time)>)
    : (result: (Option<Statement>, Reply<StoredUser>))
    ensures body.None? || !ValidUserInsert(body.value, isEmail) <==> result.1 == Failure(StatusBadRequest, BindError)
    ensures body.None? || !ValidUserInsert(body.value, isEmail) <==> result.0.None?
    ensures result.0.Some? ==> body.Some? && result.0.value == Statement(InsertUser, InsertArgs(body.value))
    ensures result.0.Some? && inserted.None? <==> result.1 == Failure(StatusInternalServerError, Message("Failed to create user"))
    ensures result.1.Success? ==>
      && body.Some? && ValidUserInsert(body.value, isEmail) && inserted.Some? && result.1.code == StatusCreated
      && var u := result.1.value;
      && u.id == inserted.value.0 && u.createdAt == inserted.value.1 && u.updatedAt == inserted.value.2
      && u.email == body.value.email && u.name == body.value.name && u.role == body.value.role
      && u.avatarUrl == body.value.avatarUrl && u.bio == body.value.bio
      && u.website == body.value.website && u.location == body.value.location
      && u.isPublic == body.value.isPublic && u.skills == []
    ensures body.Some? && ValidUserInsert(body.value, isEmail) && inserted.Some? ==> result.1.Success?
  {
    if body.None? || !ValidUserInsert(body.value, isEmail) then (None, Failure(StatusBadRequest, BindError))
    else
      var req := body.value;
      var stmt := Some(Statement(InsertUser, InsertArgs(req)));
      match inserted
      case None => (stmt, Failure(StatusInternalServerError, Message("Failed to create user")))
      case Some((id, createdAt, updatedAt)) =>
        (stmt, Success(StatusCreated, StoredUser(id, req.email, req.name, req.role, req.avatarUrl, req.bio,
                                                 req.website, req.location, [], req.isPublic, createdAt, updatedAt)))
  }

  /** The values POST /users binds to `$1 … $9`: the request's fields, skills always the empty JSON array. */
  function InsertArgs(req: UserInsert): (args: seq<SqlArg>)
    ensures |args| == 9 && args[7] == TextArg("[]") && args[8] == BoolArg(req.isPublic)
  {
    [TextArg(req.email), TextArg(req.name), TextArg(req.role), TextArg(req.avatarUrl), TextArg(req.bio),
     TextArg(req.website), TextArg(req.location), TextArg("[]"), BoolArg(req.isPublic)]
  }

  /** The insert names exactly the placeholders `$1 … $9`, one for each value bound to it. */
  lemma InsertPlaceholders(req: UserInsert)
    ensures Placeholders(InsertUser) == Numbered(|InsertArgs(req)|)
  {
    var opening, columns, rest := "\n\t\tINSERT INTO users (", "email, name, role, avatar_url, ",
                                  "bio, website, location, skills, is_public";
    var values := ")\n\t\tVALUES (";
    assert NoDollar(opening) && NoDollar(columns) && NoDollar(rest) && NoDollar(values);
    NoDollarConcat(opening, columns);
    NoDollarConcat(opening + columns, rest);
    NoDollarConcat(opening + columns + rest, values);
    assert NoDollar(InsertTail);
    ValueListPlaceholders(9);
    FramedPlaceholders(InsertHead, ValueList(9), 9, InsertTail);
  }

  /**
   * PUT /users/:id against the database: 400 when the body does not bind (no
   * statement is sent), otherwise the built statement, then 404 "User not found"
   * on any failure to read the returned row, or 200 with that row.
   */
  method UpdateUser(idText: string, body: Option<UserPatch>, row: Option<StoredUser>)
    returns (stmt: Option<Statement>, r: Reply<StoredUser>)
    ensures body.None? <==> r == Failure(StatusBadRequest, BindError)
    ensures body.None? <==> stmt.None?
    ensures body.Some? ==> stmt == Some(Statement(UpdateText(body.value), UpdateArgs(body.value, idText)))
    ensures body.Some? && row.None? <==> r == Failure(StatusNotFound, Message("User not found"))
    ensures r.Success? ==> body.Some? && row.Some? && r == Success(StatusOK, row.value.(skills := []))
    ensures body.Some? && row.Some? ==> r == Success(StatusOK, row.value.(skills := []))
  {
    if body.None? {
      return None, Failure(StatusBadRequest, BindError);
    }
    var built := BuildUpdateUser(body.value, idText);
    stmt := Some(built);
    if row.None? {
      return stmt, Failure(StatusNotFound, Message("User not found"));
    }
    r := Success(StatusOK, row.value.(skills := []));
  }

  /**
   * DELETE /users/:id against the database: 500 "Failed to delete user" when the
   * statement fails, 404 "User not found" when it deletes nothing (an error
   * reading the count also reads as zero), 204 otherwise.
   */
  function DeleteUser(idText: string, execFailed: bool, rowsAffected: int): (result: (Statement, Reply<()>))
    ensures result.0 == Statement(DeleteUserById, [TextArg(idText)])
    ensures execFailed <==> result.1 == Failure(StatusInternalServerError, Message("Failed to delete user"))
    ensures !execFailed && rowsAffected == 0 <==> result.1 == Failure(StatusNotFound, Message("User not found"))
    ensures result.1 == Success(StatusNoContent, ()) <==> !execFailed && rowsAffected != 0
  {
    var stmt := Statement(DeleteUserById, [TextArg(idText)]);
    if execFailed then (stmt, Failure(StatusInternalServerError, Message("Failed to delete user")))
    else if rowsAffected == 0 then (stmt, Failure(StatusNotFound, Message("User not found")))
    else (stmt, Success(StatusNoContent, ()))
  }
}
