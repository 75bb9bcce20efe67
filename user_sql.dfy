/**
 * `UserMapperSqlProvider`: the SQL text of the user mapper's statements.
 *
 * A statement is modelled as the sequence of the pieces the provider
 * concatenates, in order; its text is their concatenation (`Text`). The
 * script tags, the DB2 read clause, the order of the column enum's
 * `values()` and the enum's `toString` are defined elsewhere and are
 * parameters here (`SqlEnv`).
 */
module UserSql {

  /** The constants of `UserQueryColumnName` the provider refers to. */
  datatype UserColumn =
    | UserId | FirstName | Lastname | FullName | LongName | EMail | Phone | MobilePhone
    | OrgLevel4 | OrgLevel3 | OrgLevel2 | OrgLevel1 | Data | Groups | Permissions

  /**
   * What the provider takes from elsewhere: the opening and closing script
   * tags, the DB2 "with UR" clause, the enum's `values()` and its `toString`.
   */
  datatype SqlEnv = SqlEnv(
    openingScriptTag: string,
    closingScriptTag: string,
    db2WithUr: string,
    values: seq<UserColumn>,
    columnName: UserColumn -> string)

  /** A statement as the pieces of its text, in order. */
  type Sql = seq<string>

  function Text(sql: Sql): string {
    if sql == [] then "" else sql[0] + Text(sql[1..])
  }

  lemma {:induction false} TextAppend(a: Sql, b: Sql)
    ensures Text(a + b) == Text(a) + Text(b)
  {
    if a == [] {
      assert a + b == b;
    } else {
      assert (a + b)[0] == a[0];
      assert (a + b)[1..] == a[1..] + b;
      TextAppend(a[1..], b);
    }
  }

  /** Every constant once; `values()` lists them in declaration order, which is not part of this model. */
  const AllColumns: seq<UserColumn> := InfoColumnOrder + [Groups, Permissions]

  /** The user-info columns in the order the insert values and the update list them. */
  const InfoColumnOrder: seq<UserColumn> :=
    [UserId, FirstName, Lastname, FullName, LongName, EMail, Phone, MobilePhone,
     OrgLevel4, OrgLevel3, OrgLevel2, OrgLevel1, Data]

  /** `vs` can be the enum's `values()`: fifteen entries and every constant among them. */
  predicate IsEnumValues(vs: seq<UserColumn>) {
    |vs| == |AllColumns| && forall c :: c in vs
  }

  /** The columns of the USER_INFO table: all but GROUPS and PERMISSIONS. */
  predicate IsInfoColumn(c: UserColumn) {
    c != Groups && c != Permissions
  }

  /** The filter of `USER_INFO_COLUMNS`: drops GROUPS and PERMISSIONS and keeps the rest, in order. */
  function InfoColumns(vs: seq<UserColumn>): (r: seq<UserColumn>)
    ensures |r| <= |vs|
    ensures forall i :: 0 <= i < |r| ==> IsInfoColumn(r[i]) && r[i] in vs
    ensures forall i :: 0 <= i < |vs| && IsInfoColumn(vs[i]) ==> vs[i] in r
  {
    if vs == [] then []
    else
      var r := (if IsInfoColumn(vs[0]) then [vs[0]] else []) + InfoColumns(vs[1..]);
      assert forall i :: 1 <= i < |vs| ==> vs[i] == vs[1..][i - 1];
      r
  }

  /** The filter drops exactly the occurrences of GROUPS and PERMISSIONS. */
  lemma {:induction false} InfoColumnsLength(vs: seq<UserColumn>)
    ensures |InfoColumns(vs)| + multiset(vs)[Groups] + multiset(vs)[Permissions] == |vs|
  {
    if vs != [] {
      assert vs == [vs[0]] + vs[1..];
      InfoColumnsLength(vs[1..]);
    }
  }

  /** The filter keeps the enum's order: filtering a concatenation concatenates the filtered parts. */
  lemma {:induction false} InfoColumnsAppend(a: seq<UserColumn>, b: seq<UserColumn>)
    ensures InfoColumns(a + b) == InfoColumns(a) + InfoColumns(b)
  {
    if a == [] {
      assert a + b == b;
    } else {
      assert (a + b)[0] == a[0];
      assert (a + b)[1..] == a[1..] + b;
      InfoColumnsAppend(a[1..], b);
    }
  }

  /** A list of user-info columns passes the filter unchanged. */
  lemma {:induction false} InfoColumnsKeepsInfo(vs: seq<UserColumn>)
    requires Groups !in vs && Permissions !in vs
    ensures InfoColumns(vs) == vs
  {
    if vs != [] {
      assert vs[0] in vs;
      assert forall c :: c in vs[1..] ==> c in vs;
      InfoColumnsKeepsInfo(vs[1..]);
    }
  }

  function Elements(s: seq<UserColumn>): set<UserColumn> {
    set c | c in s
  }

  predicate NoDuplicates(s: seq<UserColumn>) {
    forall i, j :: 0 <= i < j < |s| ==> s[i] != s[j]
  }

  /** A list has at most as many distinct entries as entries, and as many only when none repeats. */
  lemma {:induction false} ElementsBound(s: seq<UserColumn>)
    ensures |Elements(s)| <= |s|
    ensures |Elements(s)| == |s| ==> NoDuplicates(s)
  {
    if s != [] {
      ElementsBound(s[1..]);
      assert Elements(s) == {s[0]} + Elements(s[1..]);
      if s[0] in s[1..] {
        assert Elements(s) == Elements(s[1..]);
      } else if |Elements(s)| == |s| {
        forall i, j | 0 <= i < j < |s| ensures s[i] != s[j] {
          if i == 0 {
            assert s[j] == s[1..][j - 1];
          } else {
            assert s[i] == s[1..][i - 1] && s[j] == s[1..][j - 1];
          }
        }
      }
    }
  }

  /** The user-info columns, as a set. */
  const InfoColumnSet: set<UserColumn> :=
    {UserId, FirstName, Lastname, FullName, LongName, EMail, Phone, MobilePhone,
     OrgLevel4, OrgLevel3, OrgLevel2, OrgLevel1, Data}

  /** The set holds exactly the user-info columns, thirteen of them. */
  lemma InfoColumnSetIsInfo(c: UserColumn)
    ensures c in InfoColumnSet <==> IsInfoColumn(c)
    ensures |InfoColumnSet| == 13
  {
  }

  /** From the enum's values, the filter keeps at most thirteen entries: GROUPS and PERMISSIONS occur. */
  lemma InfoColumnsAtMost13(vs: seq<UserColumn>)
    requires IsEnumValues(vs)
    ensures |InfoColumns(vs)| <= 13
  {
    InfoColumnsLength(vs);
    assert Groups in vs && Permissions in vs;
  }

  /** From the enum's values, the filter keeps every user-info column. */
  lemma InfoColumnsElements(vs: seq<UserColumn>)
    requires IsEnumValues(vs)
    ensures Elements(InfoColumns(vs)) == InfoColumnSet
  {
    var r := InfoColumns(vs);
    forall c ensures c in r <==> IsInfoColumn(c) {
      InfoColumnsMember(vs, c);
    }
    InfoElements(r);
  }

  /** A list holding exactly the user-info columns has them as its elements. */
  lemma InfoElements(r: seq<UserColumn>)
    requires forall c :: c in r <==> IsInfoColumn(c)
    ensures Elements(r) == InfoColumnSet
  {
    forall c ensures c in Elements(r) <==> c in InfoColumnSet {
      InfoColumnSetIsInfo(c);
    }
  }

  /** A constant survives the filter of a list holding every constant exactly when it is a user-info column. */
  lemma InfoColumnsMember(vs: seq<UserColumn>, c: UserColumn)
    requires c in vs
    ensures c in InfoColumns(vs) <==> IsInfoColumn(c)
  {
    var r := InfoColumns(vs);
    if c in r {
      var i :| 0 <= i < |r| && r[i] == c;
    }
    if IsInfoColumn(c) {
      var i :| 0 <= i < |vs| && vs[i] == c;
    }
  }

  /** Whatever the enum's order, the column list holds the thirteen user-info columns, each once. */
  lemma InfoColumnsOfEnum(vs: seq<UserColumn>)
    requires IsEnumValues(vs)
    ensures |InfoColumns(vs)| == 13 && NoDuplicates(InfoColumns(vs))
    ensures Elements(InfoColumns(vs)) == InfoColumnSet
  {
    InfoColumnsAtMost13(vs);
    InfoColumnsElements(vs);
    InfoColumnSetIsInfo(UserId);
    ElementsBound(InfoColumns(vs));
  }

  /** In the declaration order that the values and update lists follow, the column list is exactly that order. */
  lemma InfoColumnsInListedOrder()
    ensures InfoColumns(AllColumns) == InfoColumnOrder
  {
    InfoColumnsAppend(InfoColumnOrder, [Groups, Permissions]);
    assert InfoColumns([Groups, Permissions]) == [];
    InfoColumnOrderIsInfo();
    InfoColumnsKeepsInfo(InfoColumnOrder);
  }

  /** The listed order holds no constant the filter drops. */
  lemma InfoColumnOrderIsInfo()
    ensures Groups !in InfoColumnOrder && Permissions !in InfoColumnOrder
  {
    assert forall i :: 0 <= i < |InfoColumnOrder| ==> IsInfoColumn(InfoColumnOrder[i]);
  }

  /** `xs` with `sep` between consecutive items: `Collectors.joining(sep)` as pieces. */
  function Interleave(xs: seq<string>, sep: string): (r: Sql)
    ensures |r| == if xs == [] then 0 else 2 * |xs| - 1
  {
    if |xs| <= 1 then xs else [xs[0], sep] + Interleave(xs[1..], sep)
  }

  /** Joining puts the items at the even places and the separator at the odd ones. */
  lemma {:induction false} InterleaveIndex(xs: seq<string>, sep: string)
    ensures forall i :: 0 <= i < |xs| ==> Interleave(xs, sep)[2 * i] == xs[i]
    ensures forall i :: 0 <= i < |xs| - 1 ==> Interleave(xs, sep)[2 * i + 1] == sep
  {
    if |xs| > 1 {
      var r := Interleave(xs, sep);
      var t := Interleave(xs[1..], sep);
      InterleaveIndex(xs[1..], sep);
      forall i | 1 <= i < |xs| ensures r[2 * i] == xs[i] {
        var j := i - 1;
        assert t[2 * j] == xs[1..][j];
      }
      forall i | 1 <= i < |xs| - 1 ensures r[2 * i + 1] == sep {
        var j := i - 1;
        assert t[2 * j + 1] == sep;
      }
    }
  }

  function Names(env: SqlEnv, cs: seq<UserColumn>): seq<string> {
    seq(|cs|, i requires 0 <= i < |cs| => env.columnName(cs[i]))
  }

  /** `USER_INFO_COLUMNS`: the names of the filtered enum values joined by ", ", then a space. */
  function UserInfoColumns(env: SqlEnv): (r: Sql)
    ensures |r| >= 1 && r[|r| - 1] == " "
  {
    Interleave(Names(env, InfoColumns(env.values)), ", ") + [" "]
  }

  /**
   * The column list is the names of the filtered values, in the filter's
   * order, with ", " between them and a space after the last.
   */
  lemma UserInfoColumnsJoined(env: SqlEnv)
    ensures var q := UserInfoColumns(env);
      var cols := InfoColumns(env.values);
      && |q| == (if cols == [] then 1 else 2 * |cols|) && q[|q| - 1] == " "
      && (forall i :: 0 <= i < |cols| ==> q[2 * i] == env.columnName(cols[i]))
      && (forall i :: 0 <= i < |cols| - 1 ==> q[2 * i + 1] == ", ")
  {
    var names := Names(env, InfoColumns(env.values));
    assert |names| == |InfoColumns(env.values)|;
    InterleaveIndex(names, ", ");
  }

  /** The placeholder of the bean property each column is bound to. */
  function Placeholder(c: UserColumn): string {
    match c
    case UserId => "#{id}"
    case FirstName => "#{firstName}"
    case Lastname => "#{lastName}"
    case FullName => "#{fullName}"
    case LongName => "#{longName}"
    case EMail => "#{email}"
    case Phone => "#{phone}"
    case MobilePhone => "#{mobilePhone}"
    case OrgLevel4 => "#{orgLevel4}"
    case OrgLevel3 => "#{orgLevel3}"
    case OrgLevel2 => "#{orgLevel2}"
    case OrgLevel1 => "#{orgLevel1}"
    case Data => "#{data}"
    case Groups => "#{groups}"
    case Permissions => "#{permissions}"
  }

  /** `USER_INFO_VALUES`, cut at its separators. */
  const UserInfoValues: Sql :=
    ["#{id}", ", ", "#{firstName}", ", ", "#{lastName}", ", ", "#{fullName}", ", ", "#{longName}", ", ",
     "#{email}", ", ", "#{phone}", ", ", "#{mobilePhone}", ", ", "#{orgLevel4}", ", ", "#{orgLevel3}", ", ",
     "#{orgLevel2}", ", ", "#{orgLevel1}", ", ", "#{data}", " "]

  /**
   * The values list is thirteen placeholders, one per user-info column in the
   * listed order, each bound to its own property, with ", " between them and a
   * space after the last.
   */
  lemma UserInfoValuesBindInfoColumns()
    ensures |UserInfoValues| == 26 && UserInfoValues[25] == " "
    ensures forall k :: 0 <= k < 13 ==> UserInfoValues[2 * k] == Placeholder(InfoColumnOrder[k])
    ensures forall k :: 0 <= k < 12 ==> UserInfoValues[2 * k + 1] == ", "
  {
    forall k | 0 <= k < 13
      ensures UserInfoValues[2 * k] == Placeholder(InfoColumnOrder[k])
      ensures UserInfoValues[2 * k + 1] == if k == 12 then " " else ", "
    {
      if k == 0 { assert UserInfoValues[0] == Placeholder(InfoColumnOrder[0]); }
      else if k == 1 { assert UserInfoValues[2] == Placeholder(InfoColumnOrder[1]); }
      else if k == 2 { assert UserInfoValues[4] == Placeholder(InfoColumnOrder[2]); }
      else if k == 3 { assert UserInfoValues[6] == Placeholder(InfoColumnOrder[3]); }
      else if k == 4 { assert UserInfoValues[8] == Placeholder(InfoColumnOrder[4]); }
      else if k == 5 { assert UserInfoValues[10] == Placeholder(InfoColumnOrder[5]); }
      else if k == 6 { assert UserInfoValues[12] == Placeholder(InfoColumnOrder[6]); }
      else if k == 7 { assert UserInfoValues[14] == Placeholder(InfoColumnOrder[7]); }
      else if k == 8 { assert UserInfoValues[16] == Placeholder(InfoColumnOrder[8]); }
      else if k == 9 { assert UserInfoValues[18] == Placeholder(InfoColumnOrder[9]); }
      else if k == 10 { assert UserInfoValues[20] == Placeholder(InfoColumnOrder[10]); }
      else if k == 11 { assert UserInfoValues[22] == Placeholder(InfoColumnOrder[11]); }
      else if k == 12 { assert UserInfoValues[24] == Placeholder(InfoColumnOrder[12]); }
    }
  }

  /** "WHERE <USER_ID> = #{id} ": the key every single-user statement filters on. */
  function WhereUserId(env: SqlEnv): Sql {
    ["WHERE ", env.columnName(UserId), " = ", "#{id}", " "]
  }

  /** The shape every SELECT of the provider has: a script that ends with the DB2 read clause. */
  function ScriptSelect(env: SqlEnv, body: Sql): Sql {
    [env.openingScriptTag, "SELECT "] + body + [env.db2WithUr, env.closingScriptTag]
  }

  function FindById(env: SqlEnv): (q: Sql)
    ensures q == ScriptSelect(env, UserInfoColumns(env) + ["FROM USER_INFO "] + WhereUserId(env))
  {
    [env.openingScriptTag, "SELECT "] + UserInfoColumns(env)
      + ["FROM USER_INFO ", "WHERE ", env.columnName(UserId), " = ", "#{id}", " ", env.db2WithUr, env.closingScriptTag]
  }

  function FindByIds(env: SqlEnv): (q: Sql)
    ensures q == ScriptSelect(env, UserInfoColumns(env) + ["FROM USER_INFO ", "WHERE "] + [env.columnName(UserId)]
                                   + [" IN (<foreach item='id' collection='ids' separator=',' >#{id}</foreach>) "])
  {
    [env.openingScriptTag, "SELECT "] + UserInfoColumns(env)
      + ["FROM USER_INFO ", "WHERE ", env.columnName(UserId),
         " IN (<foreach item='id' collection='ids' separator=',' >#{id}</foreach>) ",
         env.db2WithUr, env.closingScriptTag]
  }

  function FindGroupsById(env: SqlEnv): (q: Sql)
    ensures q == ScriptSelect(env, ["GROUP_ID FROM GROUP_INFO "] + WhereUserId(env))
  {
    [env.openingScriptTag, "SELECT ", "GROUP_ID FROM GROUP_INFO ", "WHERE ", env.columnName(UserId), " = ", "#{id}", " ",
     env.db2WithUr, env.closingScriptTag]
  }

  function FindPermissionsById(env: SqlEnv): (q: Sql)
    ensures q == ScriptSelect(env, ["PERMISSION_ID FROM PERMISSION_INFO "] + WhereUserId(env))
  {
    [env.openingScriptTag, "SELECT ", "PERMISSION_ID FROM PERMISSION_INFO ", "WHERE ", env.columnName(UserId),
     " = ", "#{id}", " ", env.db2WithUr, env.closingScriptTag]
  }

  /** The text of a script SELECT starts with the opening tag and ends with the DB2 clause and the closing tag. */
  lemma ScriptSelectText(env: SqlEnv, body: Sql)
    ensures var t := Text(ScriptSelect(env, body));
      && env.openingScriptTag <= t
      && |env.db2WithUr + env.closingScriptTag| <= |t|
      && t[|t| - |env.db2WithUr + env.closingScriptTag|..] == env.db2WithUr + env.closingScriptTag
  {
    var head := [env.openingScriptTag, "SELECT "] + body;
    var tail := [env.db2WithUr, env.closingScriptTag];
    TextAppend(head, tail);
    TextAppend([env.openingScriptTag, "SELECT "], body);
    assert Text([env.openingScriptTag, "SELECT "]) == env.openingScriptTag + Text(["SELECT "]);
    assert Text(tail) == env.db2WithUr + Text([env.closingScriptTag]);
    assert Text([env.closingScriptTag]) == env.closingScriptTag + Text([]);
    var t := Text(ScriptSelect(env, body));
    assert t == Text(head) + (env.db2WithUr + env.closingScriptTag);
  }

  /** `insert()`: the column list and the values list, each in parentheses. */
  function Insert(env: SqlEnv): (r: Sql)
    ensures |r| == |UserInfoColumns(env)| + |UserInfoValues| + 3
    ensures r[0] == "INSERT INTO USER_INFO ( " && r[|r| - 1] == ")"
  {
    ["INSERT INTO USER_INFO ( "] + UserInfoColumns(env) + [") VALUES("] + UserInfoValues + [")"]
  }

  /** Whatever the enum's order, the insert's column list and values list have the same shape: thirteen items. */
  lemma InsertColumnsMatchValues(env: SqlEnv)
    requires IsEnumValues(env.values)
    ensures |InfoColumns(env.values)| == 13
    ensures |UserInfoColumns(env)| == |UserInfoValues| == 26
  {
    InfoColumnsOfEnum(env.values);
    UserInfoColumnsJoined(env);
    UserInfoValuesBindInfoColumns();
  }

  /**
   * In the listed declaration order, the k-th column of the insert's column
   * list and the k-th placeholder of its values list belong to the same column.
   */
  lemma InsertBindsInListedOrder(env: SqlEnv)
    requires env.values == AllColumns
    ensures |UserInfoColumns(env)| == |UserInfoValues| == 26
    ensures forall k :: 0 <= k < 13 ==>
              UserInfoColumns(env)[2 * k] == env.columnName(InfoColumnOrder[k]) &&
              UserInfoValues[2 * k] == Placeholder(InfoColumnOrder[k])
  {
    InfoColumnsInListedOrder();
    UserInfoColumnsJoined(env);
    UserInfoValuesBindInfoColumns();
  }

  /** The pieces of `[h] + a + [m] + b + [t]`, by position. */
  lemma Bracketed(h: string, a: Sql, m: string, b: Sql, t: string)
    ensures var q := [h] + a + [m] + b + [t];
      && |q| == |a| + |b| + 3
      && (forall i :: 0 <= i < |a| ==> q[1 + i] == a[i])
      && (forall i :: 0 <= i < |b| ==> q[|a| + 2 + i] == b[i])
  {
  }

  /**
   * In the statement itself: the k-th column name sits at piece 1 + 2k and the
   * k-th placeholder at piece 28 + 2k, and both belong to the same column.
   */
  lemma InsertBindsAtOffsets(env: SqlEnv)
    requires env.values == AllColumns
    ensures |Insert(env)| == 55
    ensures forall k :: 0 <= k < 13 ==>
              Insert(env)[1 + 2 * k] == env.columnName(InfoColumnOrder[k]) &&
              Insert(env)[28 + 2 * k] == Placeholder(InfoColumnOrder[k])
  {
    InsertBindsInListedOrder(env);
    Bracketed("INSERT INTO USER_INFO ( ", UserInfoColumns(env), ") VALUES(", UserInfoValues, ")");
  }

  /** The columns the update sets: every user-info column except USER_ID, in the listed order. */
  const UpdatedColumns: seq<UserColumn> :=
    [FirstName, Lastname, FullName, LongName, EMail, Phone, MobilePhone, OrgLevel4, OrgLevel3, OrgLevel2, OrgLevel1, Data]

  /** "<column> = <placeholder>" and the separator after it. */
  function Assign(env: SqlEnv, c: UserColumn, sep: string): Sql {
    [env.columnName(c), " = ", Placeholder(c), sep]
  }

  /** The assignments of `cs` from the `k`-th on: ", " between them, " " after the last. */
  function AssignmentsFrom(env: SqlEnv, cs: seq<UserColumn>, k: nat): Sql
    decreases |cs| - k
  {
    if k >= |cs| then []
    else Assign(env, cs[k], if k == |cs| - 1 then " " else ", ") + AssignmentsFrom(env, cs, k + 1)
  }

  /** `update()`: the assignments in the listed order, then the key, nested from the right. */
  function Update(env: SqlEnv): (r: Sql)
    ensures |r| == 55
  {
    ["UPDATE USER_INFO ", "SET "] +
    (Assign(env, FirstName, ", ") +
    (Assign(env, Lastname, ", ") +
    (Assign(env, FullName, ", ") +
    (Assign(env, LongName, ", ") +
    (Assign(env, EMail, ", ") +
    (Assign(env, Phone, ", ") +
    (Assign(env, MobilePhone, ", ") +
    (Assign(env, OrgLevel4, ", ") +
    (Assign(env, OrgLevel3, ", ") +
    (Assign(env, OrgLevel2, ", ") +
    (Assign(env, OrgLevel1, ", ") +
    (Assign(env, Data, " ") +
    WhereUserId(env)))))))))))))
  }

  /** The update sets the listed columns, each to its own property, and keys on USER_ID = #{id}. */
  lemma UpdateAssignsUpdatedColumns(env: SqlEnv)
    ensures Update(env) == ["UPDATE USER_INFO ", "SET "] + (AssignmentsFrom(env, UpdatedColumns, 0) + WhereUserId(env))
  {
    var tail := WhereUserId(env);
    assert AssignmentsFrom(env, UpdatedColumns, 11) + tail ==
           Assign(env, Data, " ") + (AssignmentsFrom(env, UpdatedColumns, 12) + tail);
    assert AssignmentsFrom(env, UpdatedColumns, 10) + tail ==
           Assign(env, OrgLevel1, ", ") + (AssignmentsFrom(env, UpdatedColumns, 11) + tail);
    assert AssignmentsFrom(env, UpdatedColumns, 9) + tail ==
           Assign(env, OrgLevel2, ", ") + (AssignmentsFrom(env, UpdatedColumns, 10) + tail);
    assert AssignmentsFrom(env, UpdatedColumns, 8) + tail ==
           Assign(env, OrgLevel3, ", ") + (AssignmentsFrom(env, UpdatedColumns, 9) + tail);
    assert AssignmentsFrom(env, UpdatedColumns, 7) + tail ==
           Assign(env, OrgLevel4, ", ") + (AssignmentsFrom(env, UpdatedColumns, 8) + tail);
    assert AssignmentsFrom(env, UpdatedColumns, 6) + tail ==
           Assign(env, MobilePhone, ", ") + (AssignmentsFrom(env, UpdatedColumns, 7) + tail);
    assert AssignmentsFrom(env, UpdatedColumns, 5) + tail ==
           Assign(env, Phone, ", ") + (AssignmentsFrom(env, UpdatedColumns, 6) + tail);
    assert AssignmentsFrom(env, UpdatedColumns, 4) + tail ==
           Assign(env, EMail, ", ") + (AssignmentsFrom(env, UpdatedColumns, 5) + tail);
    assert AssignmentsFrom(env, UpdatedColumns, 3) + tail ==
           Assign(env, LongName, ", ") + (AssignmentsFrom(env, UpdatedColumns, 4) + tail);
    assert AssignmentsFrom(env, UpdatedColumns, 2) + tail ==
           Assign(env, FullName, ", ") + (AssignmentsFrom(env, UpdatedColumns, 3) + tail);
    assert AssignmentsFrom(env, UpdatedColumns, 1) + tail ==
           Assign(env, Lastname, ", ") + (AssignmentsFrom(env, UpdatedColumns, 2) + tail);
    assert AssignmentsFrom(env, UpdatedColumns, 0) + tail ==
           Assign(env, FirstName, ", ") + (AssignmentsFrom(env, UpdatedColumns, 1) + tail);
  }

  /** The listed columns are twelve: every user-info column except USER_ID. */
  lemma UpdatedColumnsAllButUserId(c: UserColumn)
    ensures |UpdatedColumns| == 12
    ensures c in UpdatedColumns <==> IsInfoColumn(c) && c != UserId
  {
    match c
    case UserId =>
    case Groups =>
    case Permissions =>
    case FirstName => assert UpdatedColumns[0] == FirstName;
    case Lastname => assert UpdatedColumns[1] == Lastname;
    case FullName => assert UpdatedColumns[2] == FullName;
    case LongName => assert UpdatedColumns[3] == LongName;
    case EMail => assert UpdatedColumns[4] == EMail;
    case Phone => assert UpdatedColumns[5] == Phone;
    case MobilePhone => assert UpdatedColumns[6] == MobilePhone;
    case OrgLevel4 => assert UpdatedColumns[7] == OrgLevel4;
    case OrgLevel3 => assert UpdatedColumns[8] == OrgLevel3;
    case OrgLevel2 => assert UpdatedColumns[9] == OrgLevel2;
    case OrgLevel1 => assert UpdatedColumns[10] == OrgLevel1;
    case Data => assert UpdatedColumns[11] == Data;
  }

  /** The shape of the three deletes: "DELETE FROM <table> WHERE <USER_ID> = #{id} ". */
  function DeleteFrom(env: SqlEnv, table: string): Sql {
    ["DELETE FROM ", table, " "] + WhereUserId(env)
  }

  function Delete(env: SqlEnv): (q: Sql)
    ensures q == DeleteFrom(env, "USER_INFO")
  {
    ["DELETE FROM ", "USER_INFO", " ", "WHERE ", env.columnName(UserId), " = ", "#{id}", " "]
  }

  function DeleteGroups(env: SqlEnv): (q: Sql)
    ensures q == DeleteFrom(env, "GROUP_INFO")
  {
    ["DELETE FROM ", "GROUP_INFO", " ", "WHERE ", env.columnName(UserId), " = ", "#{id}", " "]
  }

  function DeletePermissions(env: SqlEnv): (q: Sql)
    ensures q == DeleteFrom(env, "PERMISSION_INFO")
  {
    ["DELETE FROM ", "PERMISSION_INFO", " ", "WHERE ", env.columnName(UserId), " = ", "#{id}", " "]
  }

  function InsertGroups(env: SqlEnv): (q: Sql)
    ensures |q| == 8 && q[0] == env.openingScriptTag && q[7] == env.closingScriptTag
    ensures q[2] == env.columnName(UserId)
  {
    [env.openingScriptTag, "INSERT INTO GROUP_INFO (", env.columnName(UserId), ", GROUP_ID) VALUES ",
     "<foreach item='group' collection='groups' open='(' separator='),(' close=')'>",
     "#{id}, #{group}", "</foreach> ", env.closingScriptTag]
  }

  function InsertPermissions(env: SqlEnv): (q: Sql)
    ensures |q| == 9 && q[0] == env.openingScriptTag && q[8] == env.closingScriptTag
    ensures q[2] == env.columnName(UserId)
  {
    [env.openingScriptTag, "INSERT INTO PERMISSION_INFO (", env.columnName(UserId), ", PERMISSION_ID) VALUES ",
     "<foreach item='permission' collection='permissions' ", "open='(' separator='),(' close=')'>",
     "#{id}, #{permission}", "</foreach> ", env.closingScriptTag]
  }
}
