/** SCIM user records: what differs, what each update mode may write, and the request that writes it
    (app/scim/apple.py). An attribute the JSON lacks reads as its default, as in the program. */
module Records {
  import opened Wrappers
  import opened Text

  datatype Email = Email(value: string, primary: bool)

  datatype User = User(
    id: string, externalId: string, userName: string, givenName: string, familyName: string,
    emails: seq<Email>, active: bool)

  function Ext(u: User): string {
    Strip(u.externalId)
  }

  function Name(u: User): string {
    Normalize(u.userName)
  }

  /** `_same_identity` on two records. */
  predicate SameIdentity(a: User, b: User) {
    a.id == b.id && Name(a) == Name(b) && Ext(a) == Ext(b)
  }

  predicate SameIdentityOpt(a: Option<User>, b: Option<User>) {
    (a.None? && b.None?) || (a.Some? && b.Some? && SameIdentity(a.value, b.value))
  }

  /** `_is_safe_user_id`. */
  predicate SafeId(id: string) {
    && id == Strip(id) && id != "" && id != "." && id != ".."
    && forall c :: c in id ==> c != '/' && c != '\\' && c != '%' && c as int >= 32 && c as int != 127
  }

  /** A safe id is one path segment: not empty, not a dot segment, without separators, escapes or control characters, and
      without blanks at its ends. */
  lemma SafeIdIff(id: string)
    ensures SafeId(id)
            <==> id != "" && id != "." && id != ".." && !IsSpace(id[0]) && !IsSpace(id[|id| - 1])
                 && '/' !in id && '\\' !in id && '%' !in id && forall c :: c in id ==> c >= ' ' && c as int != 127
  {
    assert Trimmed(Strip(id));
  }

  // ----- the primary address -----

  predicate Usable(e: Email, primaryOnly: bool) {
    e.value != "" && (primaryOnly ==> e.primary)
  }

  function FirstUsable(emails: seq<Email>, primaryOnly: bool): Option<string> {
    if emails == [] then None
    else if Usable(emails[0], primaryOnly) then Some(Strip(emails[0].value))
    else FirstUsable(emails[1..], primaryOnly)
  }

  /** The first address marked primary, or else the first address. */
  function PrimaryEmail(emails: seq<Email>): string {
    match FirstUsable(emails, true)
    case Some(v) => v
    case None => (match FirstUsable(emails, false) case Some(v) => v case None => "")
  }

  /** Entry `i` is the first non-empty one, of those marked primary if so asked. */
  ghost predicate IsFirst(emails: seq<Email>, primary: bool, i: nat) {
    && i < |emails| && emails[i].value != "" && (primary ==> emails[i].primary)
    && forall j :: 0 <= j < i ==> emails[j].value == "" || (primary && !emails[j].primary)
  }

  ghost predicate NoneAt(emails: seq<Email>, primary: bool) {
    forall j :: 0 <= j < |emails| ==> emails[j].value == "" || (primary && !emails[j].primary)
  }

  /** The address the program reads off a record: the first non-empty entry marked primary, or else the first
      non-empty one, or else nothing. */
  ghost predicate AddressIs(emails: seq<Email>, a: string) {
    || (exists i: nat :: IsFirst(emails, true, i) && a == Strip(emails[i].value))
    || (NoneAt(emails, true) && exists i: nat :: IsFirst(emails, false, i) && a == Strip(emails[i].value))
    || (NoneAt(emails, true) && NoneAt(emails, false) && a == "")
  }

  lemma {:induction false} FirstUsableAt(emails: seq<Email>, primary: bool)
    ensures match FirstUsable(emails, primary)
            case None => NoneAt(emails, primary)
            case Some(a) => exists i: nat :: IsFirst(emails, primary, i) && a == Strip(emails[i].value)
    decreases |emails|
  {
    if emails != [] {
      if Usable(emails[0], primary) {
        assert IsFirst(emails, primary, 0);
      } else {
        FirstUsableAt(emails[1..], primary);
        if FirstUsable(emails[1..], primary).Some? {
          var i: nat :| IsFirst(emails[1..], primary, i) && FirstUsable(emails, primary) == Some(Strip(emails[1..][i].value));
          forall j | 0 <= j < i + 1 ensures emails[j].value == "" || (primary && !emails[j].primary) {
            assert j > 0 ==> emails[j] == emails[1..][j - 1];
          }
          assert IsFirst(emails, primary, i + 1);
        } else {
          forall j | 0 <= j < |emails| ensures emails[j].value == "" || (primary && !emails[j].primary) {
            assert j > 0 ==> emails[j] == emails[1..][j - 1];
          }
        }
      }
    }
  }

  lemma FirstIsOne(emails: seq<Email>, primary: bool, i: nat, j: nat)
    requires IsFirst(emails, primary, i) && IsFirst(emails, primary, j)
    ensures i == j
  {}

  /** There is exactly one such address, and it is what the program computes. */
  lemma PrimaryEmailIs(emails: seq<Email>, a: string)
    ensures AddressIs(emails, a) <==> a == PrimaryEmail(emails)
  {
    FirstUsableAt(emails, true);
    FirstUsableAt(emails, false);
    forall primary, i: nat, j: nat | IsFirst(emails, primary, i) && IsFirst(emails, primary, j) ensures i == j {
      FirstIsOne(emails, primary, i, j);
    }
  }

  /** The single pass of `_primary_email`, which remembers the first address while it looks for a primary one. */
  method FindPrimaryEmail(emails: seq<Email>) returns (r: string)
    ensures r == PrimaryEmail(emails) && AddressIs(emails, r)
  {
    PrimaryEmailIs(emails, PrimaryEmail(emails));
    var first: Option<string> := None;
    for i := 0 to |emails|
      invariant FirstUsable(emails, true) == FirstUsable(emails[i..], true)
      invariant first.Some? ==> FirstUsable(emails, false) == first
      invariant first.None? ==> FirstUsable(emails, false) == FirstUsable(emails[i..], false)
    {
      var email := emails[i];
      assert emails[i..][0] == email && emails[i..][1..] == emails[i + 1..];
      if first.None? && email.value != "" {
        first := Some(Strip(email.value));
      }
      if email.primary && email.value != "" {
        return Strip(email.value);
      }
    }
    assert emails[|emails|..] == [];
    r := match first case Some(v) => v case None => "";
  }

  // ----- differences -----

  /** One flag a field. A key the program leaves out of its dictionary is a flag that is not set. */
  datatype Diffs = Diffs(
    externalId: bool, userName: bool, givenName: bool, familyName: bool, email: bool, active: bool)

  function FieldDiffs(existing: User, new_: User, includeExternalId: bool): Diffs {
    Diffs(
      includeExternalId && Ext(existing) != Ext(new_),
      Name(existing) != Name(new_),
      Strip(existing.givenName) != Strip(new_.givenName),
      Strip(existing.familyName) != Strip(new_.familyName),
      Normalize(PrimaryEmail(existing.emails)) != Normalize(PrimaryEmail(new_.emails)),
      existing.active != new_.active)
  }

  predicate AnyDiff(d: Diffs) {
    d.externalId || d.userName || d.givenName || d.familyName || d.email || d.active
  }

  datatype Mode = PatchAll | ReplaceAll | ExternalIdOnly | EmailsOnly | UsernameOnly

  datatype Field = ExternalIdField | UserNameField | NameField | EmailsField | ActiveField

  /** The fields `_update_fields_for_mode` lists. */
  predicate Writes(mode: Mode, f: Field) {
    match mode
    case ExternalIdOnly => f.ExternalIdField?
    case EmailsOnly => f.EmailsField?
    case UsernameOnly => f.UserNameField?
    case PatchAll => true
    case ReplaceAll => true
  }

  function Actionable(d: Diffs, mode: Mode): Diffs {
    Diffs(
      d.externalId && Writes(mode, ExternalIdField),
      d.userName && Writes(mode, UserNameField),
      d.givenName && Writes(mode, NameField),
      d.familyName && Writes(mode, NameField),
      d.email && Writes(mode, EmailsField),
      d.active && Writes(mode, ActiveField))
  }

  /** The flags a mode will never resolve. */
  function Stale(d: Diffs, mode: Mode): Diffs {
    Diffs(
      d.externalId && !Writes(mode, ExternalIdField),
      d.userName && !Writes(mode, UserNameField),
      d.givenName && !Writes(mode, NameField),
      d.familyName && !Writes(mode, NameField),
      d.email && !Writes(mode, EmailsField),
      d.active && !Writes(mode, ActiveField))
  }

  // ----- what a difference is -----

  /** Both records have the same address, up to blanks and case. */
  ghost predicate SameAddress(a: User, b: User) {
    exists x, y :: AddressIs(a.emails, x) && AddressIs(b.emails, y) && Normalize(x) == Normalize(y)
  }

  lemma SameAddressIff(a: User, b: User)
    ensures SameAddress(a, b) <==> Normalize(PrimaryEmail(a.emails)) == Normalize(PrimaryEmail(b.emails))
  {
    PrimaryEmailIs(a.emails, PrimaryEmail(a.emails));
    PrimaryEmailIs(b.emails, PrimaryEmail(b.emails));
    if SameAddress(a, b) {
      var x, y :| AddressIs(a.emails, x) && AddressIs(b.emails, y) && Normalize(x) == Normalize(y);
      PrimaryEmailIs(a.emails, x);
      PrimaryEmailIs(b.emails, y);
    }
  }

  predicate SameNames(a: User, b: User) {
    Strip(a.givenName) == Strip(b.givenName) && Strip(a.familyName) == Strip(b.familyName)
  }

  /** The records agree on what the mode writes. */
  ghost predicate AgreeInside(mode: Mode, a: User, b: User) {
    match mode
    case ExternalIdOnly => Ext(a) == Ext(b)
    case EmailsOnly => SameAddress(a, b)
    case UsernameOnly => Name(a) == Name(b)
    case _ => Ext(a) == Ext(b) && Name(a) == Name(b) && SameNames(a, b) && SameAddress(a, b) && a.active == b.active
  }

  /** The records agree on what the mode leaves alone. */
  ghost predicate AgreeOutside(mode: Mode, a: User, b: User) {
    match mode
    case ExternalIdOnly => Name(a) == Name(b) && SameNames(a, b) && SameAddress(a, b) && a.active == b.active
    case EmailsOnly => Ext(a) == Ext(b) && Name(a) == Name(b) && SameNames(a, b) && a.active == b.active
    case UsernameOnly => Ext(a) == Ext(b) && SameNames(a, b) && SameAddress(a, b) && a.active == b.active
    case _ => true
  }

  /** There is a difference to write exactly when the records disagree on an attribute the mode writes, and one to
      report exactly when they disagree on another. */
  lemma DifferencesAre(a: User, b: User, mode: Mode)
    ensures AnyDiff(Actionable(FieldDiffs(a, b, true), mode)) <==> !AgreeInside(mode, a, b)
    ensures AnyDiff(Stale(FieldDiffs(a, b, true), mode)) <==> !AgreeOutside(mode, a, b)
  {
    SameAddressIff(a, b);
  }

  // ----- requests -----

  datatype Op =
    | SetExternalId(externalId: string)
    | SetUserName(userName: string)
    | SetGivenName(givenName: string)
    | SetFamilyName(familyName: string)
    | SetEmails(emails: seq<Email>)
    | SetActive(active: bool)

  datatype Update = Patch(ops: seq<Op>) | Put(body: User)

  function OpIf(flag: bool, op: Op): seq<Op> {
    if flag then [op] else []
  }

  /** One operation a changed attribute, in the program's order; `d` is already limited to the mode. */
  function Operations(u: User, d: Diffs): seq<Op> {
    OpIf(d.externalId, SetExternalId(Ext(u))) + OpIf(d.userName, SetUserName(u.userName))
    + OpIf(d.givenName, SetGivenName(u.givenName)) + OpIf(d.familyName, SetFamilyName(u.familyName))
    + OpIf(d.email, SetEmails(u.emails)) + OpIf(d.active, SetActive(u.active))
  }

  /** `_build_update_request`; `None` is its "no changed attributes" error. */
  function BuildUpdate(u: User, mode: Mode, appleId: string, d: Diffs): Option<Update> {
    if mode.ReplaceAll? then Some(Put(u.(externalId := "", id := appleId)))
    else if Operations(u, Actionable(d, mode)) == [] then None
    else Some(Patch(Operations(u, Actionable(d, mode))))
  }

  // ----- what a server does with them -----

  function ApplyOp(u: User, op: Op): User {
    match op
    case SetExternalId(v) => u.(externalId := v)
    case SetUserName(v) => u.(userName := v)
    case SetGivenName(v) => u.(givenName := v)
    case SetFamilyName(v) => u.(familyName := v)
    case SetEmails(v) => u.(emails := v)
    case SetActive(v) => u.(active := v)
  }

  /** PATCH replace, section 3.5.2.3 of RFC 7644. */
  function ApplyOps(u: User, ops: seq<Op>): User
    decreases |ops|
  {
    if ops == [] then u else ApplyOps(ApplyOp(u, ops[0]), ops[1..])
  }

  /** PUT replaces all attributes but the id and the externalId, which the server keeps. */
  function ApplyUpdate(u: User, update: Update): User {
    match update
    case Patch(ops) => ApplyOps(u, ops)
    case Put(body) => body.(id := u.id, externalId := u.externalId)
  }

  lemma {:induction false} ApplyConcat(u: User, a: seq<Op>, b: seq<Op>)
    ensures ApplyOps(u, a + b) == ApplyOps(ApplyOps(u, a), b)
    decreases |a|
  {
    if a == [] {
      assert a + b == b;
    } else {
      assert (a + b)[1..] == a[1..] + b;
      ApplyConcat(ApplyOp(u, a[0]), a[1..], b);
    }
  }

  /** A PATCH is built exactly when some field the mode writes differs, so the reconciler, which asks only
      then, never meets the "no changed attributes" error. */
  lemma UpdateBuiltIff(u: User, mode: Mode, appleId: string, d: Diffs)
    ensures BuildUpdate(u, mode, appleId, Actionable(d, mode)).Some? <==> mode.ReplaceAll? || AnyDiff(Actionable(d, mode))
  {
    var act := Actionable(d, mode);
    assert Actionable(act, mode) == act;
    var n := |OpIf(act.externalId, SetExternalId(Ext(u)))| + |OpIf(act.userName, SetUserName(u.userName))|
             + |OpIf(act.givenName, SetGivenName(u.givenName))| + |OpIf(act.familyName, SetFamilyName(u.familyName))|
             + |OpIf(act.email, SetEmails(u.emails))| + |OpIf(act.active, SetActive(u.active))|;
    assert |Operations(u, act)| == n;
  }

  /** A record with the flagged fields taken from another. */
  function Merged(existing: User, u: User, d: Diffs): User {
    User(
      existing.id,
      if d.externalId then Ext(u) else existing.externalId,
      if d.userName then u.userName else existing.userName,
      if d.givenName then u.givenName else existing.givenName,
      if d.familyName then u.familyName else existing.familyName,
      if d.email then u.emails else existing.emails,
      if d.active then u.active else existing.active)
  }

  lemma ApplyIf(u: User, flag: bool, op: Op)
    ensures ApplyOps(u, OpIf(flag, op)) == if flag then ApplyOp(u, op) else u
  {}

  lemma OperationsMerge(existing: User, u: User, d: Diffs)
    ensures ApplyOps(existing, Operations(u, d)) == Merged(existing, u, d)
  {
    var a, b := OpIf(d.externalId, SetExternalId(Ext(u))), OpIf(d.userName, SetUserName(u.userName));
    var c, e := OpIf(d.givenName, SetGivenName(u.givenName)), OpIf(d.familyName, SetFamilyName(u.familyName));
    var f, g := OpIf(d.email, SetEmails(u.emails)), OpIf(d.active, SetActive(u.active));
    ApplyConcat(existing, a + b + c + e + f, g);
    ApplyConcat(existing, a + b + c + e, f);
    ApplyConcat(existing, a + b + c, e);
    ApplyConcat(existing, a + b, c);
    ApplyConcat(existing, a, b);
    var u1 := ApplyOps(existing, a);
    ApplyIf(existing, d.externalId, SetExternalId(Ext(u)));
    var u2 := ApplyOps(u1, b);
    ApplyIf(u1, d.userName, SetUserName(u.userName));
    var u3 := ApplyOps(u2, c);
    ApplyIf(u2, d.givenName, SetGivenName(u.givenName));
    var u4 := ApplyOps(u3, e);
    ApplyIf(u3, d.familyName, SetFamilyName(u.familyName));
    var u5 := ApplyOps(u4, f);
    ApplyIf(u4, d.email, SetEmails(u.emails));
    ApplyIf(u5, d.active, SetActive(u.active));
  }

  /** Merging clears exactly the merged differences. */
  lemma MergedDiffs(existing: User, u: User, d: Diffs, withId: bool)
    ensures FieldDiffs(Merged(existing, u, d), u, withId) == StaleOf(FieldDiffs(existing, u, withId), d)
  {}

  lemma PutUndoesDiff(existing: User, u: User, withId: bool)
    requires withId ==> Ext(existing) == Ext(u)
    ensures var after := ApplyUpdate(existing, Put(u.(externalId := "", id := existing.id)));
            after == u.(id := existing.id, externalId := existing.externalId) && !AnyDiff(FieldDiffs(after, u, withId))
  {}

  function StaleOf(was: Diffs, d: Diffs): Diffs {
    Diffs(was.externalId && !d.externalId, was.userName && !d.userName, was.givenName && !d.givenName,
          was.familyName && !d.familyName, was.email && !d.email, was.active && !d.active)
  }

  lemma StaleIsRest(d: Diffs, mode: Mode)
    ensures StaleOf(d, Actionable(d, mode)) == Stale(d, mode)
    ensures Actionable(Actionable(d, mode), mode) == Actionable(d, mode)
    ensures mode.ReplaceAll? ==> !AnyDiff(Stale(d, mode))
    ensures !AnyDiff(Actionable(Stale(d, mode), mode)) && Stale(Stale(d, mode), mode) == Stale(d, mode)
  {}

  /** The account after the request for its differences. */
  function Updated(existing: User, u: User, mode: Mode): User {
    if mode.ReplaceAll? then u.(id := existing.id, externalId := existing.externalId)
    else Merged(existing, u, Actionable(FieldDiffs(existing, u, true), mode))
  }

  /** For all records, in every mode, when the externalIds agree or are left out of the comparison: the request
      built from a difference, applied to the record, leaves no difference the mode writes. A PATCH leaves every
      other difference as it was and a PUT leaves none. The id and the externalId of the account never change. */
  lemma UpdateUndoesDiff(existing: User, u: User, mode: Mode, withId: bool)
    requires withId ==> Ext(existing) == Ext(u)
    requires AnyDiff(Actionable(FieldDiffs(existing, u, withId), mode))
    ensures var d := FieldDiffs(existing, u, withId);
            var update := BuildUpdate(u, mode, existing.id, Actionable(d, mode));
            && update.Some?
            && var after := ApplyUpdate(existing, update.value);
               && (Ext(existing) == Ext(u) ==> after == Updated(existing, u, mode))
               && FieldDiffs(after, u, withId) == Stale(d, mode)
               && after.id == existing.id && after.externalId == existing.externalId
               && (after.userName == existing.userName || after.userName == u.userName)
  {
    var d := FieldDiffs(existing, u, withId);
    var act := Actionable(d, mode);
    StaleIsRest(d, mode);
    UpdateBuiltIff(u, mode, existing.id, d);
    if mode.ReplaceAll? {
      PutUndoesDiff(existing, u, withId);
    } else {
      OperationsMerge(existing, u, act);
      MergedDiffs(existing, u, act, withId);
    }
  }

  /** The request, attribute by attribute: a PUT is the user's record under the account's id and without the
      externalId, and a PATCH sets each attribute that differs and that the mode writes, once, in order and to
      the user's value, and nothing else. */
  lemma RequestIs(existing: User, u: User, mode: Mode)
    requires AnyDiff(Actionable(FieldDiffs(existing, u, true), mode))
    ensures var request := BuildUpdate(u, mode, existing.id, Actionable(FieldDiffs(existing, u, true), mode));
            && request.Some?
            && (mode.ReplaceAll? ==>
                  request.value == Put(User(existing.id, "", u.userName, u.givenName, u.familyName, u.emails, u.active)))
            && (!mode.ReplaceAll? ==> request.value.Patch? && SetsOnce(request.value.ops, existing, u, mode))
  {
    var act := Actionable(FieldDiffs(existing, u, true), mode);
    UpdateBuiltIff(u, mode, existing.id, FieldDiffs(existing, u, true));
    assert Actionable(act, mode) == act;
    if !mode.ReplaceAll? {
      OperationsAsked(existing, u, mode);
    }
  }

  /** The operation sets an attribute that differs and that the mode writes to the user's value. */
  ghost predicate Asked(op: Op, existing: User, u: User, mode: Mode) {
    match op
    case SetExternalId(v) => v == Ext(u) && Ext(existing) != Ext(u) && (mode.PatchAll? || mode.ExternalIdOnly?)
    case SetUserName(v) => v == u.userName && Name(existing) != Name(u) && (mode.PatchAll? || mode.UsernameOnly?)
    case SetGivenName(v) => v == u.givenName && Strip(existing.givenName) != Strip(u.givenName) && mode.PatchAll?
    case SetFamilyName(v) => v == u.familyName && Strip(existing.familyName) != Strip(u.familyName) && mode.PatchAll?
    case SetEmails(v) => v == u.emails && !SameAddress(existing, u) && (mode.PatchAll? || mode.EmailsOnly?)
    case SetActive(v) => v == u.active && existing.active != u.active && mode.PatchAll?
  }

  ghost predicate SetsOnce(ops: seq<Op>, existing: User, u: User, mode: Mode) {
    && (forall op :: op in ops <==> Asked(op, existing, u, mode))
    && Ranked(ops, 6)
  }

  lemma OperationIn(u: User, d: Diffs, op: Op)
    ensures op in Operations(u, d)
            <==> (d.externalId && op == SetExternalId(Ext(u))) || (d.userName && op == SetUserName(u.userName))
                 || (d.givenName && op == SetGivenName(u.givenName)) || (d.familyName && op == SetFamilyName(u.familyName))
                 || (d.email && op == SetEmails(u.emails)) || (d.active && op == SetActive(u.active))
  {}

  /** The operations come in the order of the attributes, each at most once. */
  function Rank(op: Op): nat {
    match op
    case SetExternalId(_) => 0
    case SetUserName(_) => 1
    case SetGivenName(_) => 2
    case SetFamilyName(_) => 3
    case SetEmails(_) => 4
    case SetActive(_) => 5
  }

  predicate Ranked(ops: seq<Op>, limit: nat) {
    && (forall i :: 0 <= i < |ops| ==> Rank(ops[i]) < limit)
    && (forall i, j :: 0 <= i < j < |ops| ==> Rank(ops[i]) < Rank(ops[j]))
  }

  /** At most one operation, of this attribute. */
  predicate OneOf(ops: seq<Op>, rank: nat) {
    ops == [] || (|ops| == 1 && Rank(ops[0]) == rank)
  }

  lemma RankedMore(ops: seq<Op>, more: seq<Op>, rank: nat)
    requires Ranked(ops, rank) && OneOf(more, rank)
    ensures Ranked(ops + more, rank + 1)
  {}

  lemma RankedSix(a: seq<Op>, b: seq<Op>, c: seq<Op>, d: seq<Op>, e: seq<Op>, f: seq<Op>)
    requires OneOf(a, 0) && OneOf(b, 1) && OneOf(c, 2) && OneOf(d, 3) && OneOf(e, 4) && OneOf(f, 5)
    ensures Ranked(a + b + c + d + e + f, 6)
  {
    RankedMore(a, b, 1);
    RankedMore(a + b, c, 2);
    RankedMore(a + b + c, d, 3);
    RankedMore(a + b + c + d, e, 4);
    RankedMore(a + b + c + d + e, f, 5);
  }

  lemma OperationsRanked(u: User, d: Diffs)
    ensures Ranked(Operations(u, d), 6)
  {
    RankedSix(OpIf(d.externalId, SetExternalId(Ext(u))), OpIf(d.userName, SetUserName(u.userName)),
              OpIf(d.givenName, SetGivenName(u.givenName)), OpIf(d.familyName, SetFamilyName(u.familyName)),
              OpIf(d.email, SetEmails(u.emails)), OpIf(d.active, SetActive(u.active)));
  }

  /** The operations of a PATCH are those of the attributes that differ and that the mode writes. */
  lemma OperationsAsked(existing: User, u: User, mode: Mode)
    requires !mode.ReplaceAll?
    ensures SetsOnce(Operations(u, Actionable(FieldDiffs(existing, u, true), mode)), existing, u, mode)
  {
    var act := Actionable(FieldDiffs(existing, u, true), mode);
    OperationsRanked(u, act);
    forall op ensures op in Operations(u, act) <==> Asked(op, existing, u, mode) {
      AskedIff(existing, u, mode, op);
    }
  }

  lemma AskedIff(existing: User, u: User, mode: Mode, op: Op)
    requires !mode.ReplaceAll?
    ensures op in Operations(u, Actionable(FieldDiffs(existing, u, true), mode)) <==> Asked(op, existing, u, mode)
  {
    OperationIn(u, Actionable(FieldDiffs(existing, u, true), mode), op);
    SameAddressIff(existing, u);
  }
}
