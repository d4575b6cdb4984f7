/** Request gating helpers: the upload file-name check, the mapping from a
    service result to a status code, the two role guards and the set of
    record categories a role may edit. */
module Utils {
  import opened Opt

  // ---------------------------------------------------------------------
  // JSON values and Python truthiness
  // ---------------------------------------------------------------------

  /** A JSON value as the services and request bodies carry it. */
  datatype Json =
    | JNull
    | JBool(b: bool)
    | JNumber(n: real)
    | JString(s: string)
    | JArray(items: seq<Json>)
    | JObject(fields: map<string, Json>)

  /** Python's truth value of a decoded JSON value: null, false, zero and
      empty strings, lists and dicts are false. */
  predicate Truthy(v: Json) {
    match v
    case JNull => false
    case JBool(b) => b
    case JNumber(n) => n != 0.0
    case JString(s) => s != ""
    case JArray(items) => items != []
    case JObject(fields) => fields != map[]
  }

  /** `d.get(key)` followed by a truth test: a missing key reads as None. */
  predicate GetTruthy(d: map<string, Json>, key: string) {
    key in d && Truthy(d[key])
  }

  // ---------------------------------------------------------------------
  // Upload file names
  // ---------------------------------------------------------------------

  const AllowedExtensions: set<string> := {"xlsx", "xls"}

  /** Python's `str.lower` on one character, for the ASCII letters; every
      other character is left as it is. */
  function LowerChar(c: char): char {
    if 'A' <= c <= 'Z' then (c as int + 32) as char else c
  }

  function Lower(s: string): (r: string)
    ensures |r| == |s|
    ensures forall i :: 0 <= i < |s| ==> r[i] == LowerChar(s[i])
  {
    seq(|s|, i requires 0 <= i < |s| => LowerChar(s[i]))
  }

  /** The position of the last `.` in `s`, where `s.rsplit('.', 1)` splits. */
  function LastDot(s: string): (r: Option<nat>)
    ensures r.None? <==> forall j :: 0 <= j < |s| ==> s[j] != '.'
    ensures r.Some? ==> r.value < |s| && s[r.value] == '.'
    ensures r.Some? ==> forall j :: r.value < j < |s| ==> s[j] != '.'
  {
    if |s| == 0 then None
    else if s[|s| - 1] == '.' then Some(|s| - 1)
    else LastDot(s[..|s| - 1])
  }

  /** The lower-cased extension is one of the allowed ones. */
  predicate ExtensionAllowed(ext: string) {
    Lower(ext) in AllowedExtensions
  }

  /** `allowed_file`: the text after the last `.`, lower-cased, is one of the
      allowed extensions. */
  function AllowedFile(filename: string): (ok: bool)
    ensures (forall j :: 0 <= j < |filename| ==> filename[j] != '.') ==> !ok
  {
    match LastDot(filename)
    case None => false
    case Some(i) => ExtensionAllowed(filename[i + 1..])
  }

  /** Position `i` of `s` holds a dot and no dot follows it. */
  ghost predicate IsLastDot(s: string, i: int) {
    0 <= i < |s| && s[i] == '.' && forall j :: i < j < |s| ==> s[j] != '.'
  }

  /** Only one position can be the last dot. */
  lemma LastDotUnique(s: string, i: int)
    requires IsLastDot(s, i)
    ensures LastDot(s) == Some(i)
  {
    assert s[i] == '.';
  }

  /** A name is accepted exactly when it has a last dot and the lower-cased
      text after that dot is an allowed extension. */
  lemma AllowedFileCharacterised(filename: string)
    ensures AllowedFile(filename) <==>
              exists i :: IsLastDot(filename, i) && ExtensionAllowed(filename[i + 1..])
  {
    match LastDot(filename)
    case None =>
    case Some(k) =>
      assert IsLastDot(filename, k);
      forall i | IsLastDot(filename, i)
        ensures i == k
      {
        LastDotUnique(filename, i);
      }
  }

  /** The verdict depends only on the extension after the last dot, compared
      without regard to case. */
  lemma AllowedFileByExtension(stem: string, ext: string)
    requires forall j :: 0 <= j < |ext| ==> ext[j] != '.'
    ensures AllowedFile(stem + "." + ext) <==> Lower(ext) in AllowedExtensions
  {
    var f := stem + "." + ext;
    var i := |stem|;
    assert f[i + 1..] == ext;
    assert IsLastDot(f, i);
    LastDotUnique(f, i);
  }

  /** An upper-case final extension is accepted, whatever dots come
      before it. */
  lemma UpperCaseExtensionAccepted()
    ensures AllowedFile("a.b.XLSX")
  {
    var ext := "XLSX";
    AllowedFileByExtension("a.b", ext);
    assert Lower(ext) == "xlsx" by {
      assert Lower(ext)[0] == 'x' && Lower(ext)[1] == 'l' && Lower(ext)[2] == 's' && Lower(ext)[3] == 'x';
    }
    assert "a.b" + "." + ext == "a.b.XLSX";
  }

  /** An allowed extension that is not the last one does not count. */
  lemma InnerExtensionRejected()
    ensures !AllowedFile("a.xlsx.zip")
  {
    var ext := "zip";
    AllowedFileByExtension("a.xlsx", ext);
    assert Lower(ext) == "zip" by {
      assert Lower(ext)[0] == 'z' && Lower(ext)[1] == 'i' && Lower(ext)[2] == 'p';
    }
    assert "a.xlsx" + "." + ext == "a.xlsx.zip";
  }

  lemma {:induction false} LastDotIgnoresCase(s: string)
    ensures LastDot(Lower(s)) == LastDot(s)
  {
    if |s| > 0 {
      assert Lower(s)[..|s| - 1] == Lower(s[..|s| - 1]);
      LastDotIgnoresCase(s[..|s| - 1]);
    }
  }

  lemma LowerSuffix(s: string, i: nat)
    requires i <= |s|
    ensures Lower(s)[i..] == Lower(s[i..])
  {
  }

  lemma LowerIdempotent(s: string)
    ensures Lower(Lower(s)) == Lower(s)
  {
  }

  /** Lower-casing a file name first does not change the verdict. */
  lemma AllowedFileIgnoresCase(filename: string)
    ensures AllowedFile(Lower(filename)) == AllowedFile(filename)
  {
    LastDotIgnoresCase(filename);
    match LastDot(filename)
    case None =>
    case Some(i) =>
      LowerSuffix(filename, i + 1);
      LowerIdempotent(filename[i + 1..]);
  }

  // ---------------------------------------------------------------------
  // Service results
  // ---------------------------------------------------------------------

  /** What a service hands back: a ready-made `(body, status)` pair, or a
      dict that may carry a `success` key. */
  datatype ServiceResult =
    | Pair(body: Json, status: int)
    | Dict(fields: map<string, Json>)

  datatype Response = Response(body: Json, status: int)

  /** `_handle_service_result`: a pair keeps its own status; a dict answers
      200 when its `success` is truthy and `defaultErrorStatus` otherwise. */
  function HandleServiceResult(result: ServiceResult, defaultErrorStatus: int := 500): (r: Response)
    ensures result.Pair? ==> r == Response(result.body, result.status)
    ensures result.Dict? ==> r.body == JObject(result.fields)
    ensures result.Dict? && GetTruthy(result.fields, "success") ==> r.status == 200
    ensures result.Dict? && !GetTruthy(result.fields, "success") ==> r.status == defaultErrorStatus
  {
    match result
    case Pair(body, status) => Response(body, status)
    case Dict(fields) =>
      if GetTruthy(fields, "success") then Response(JObject(fields), 200)
      else Response(JObject(fields), defaultErrorStatus)
  }

  /** With the default error status, a dict answers 200 exactly when it
      reports success and 500 exactly when it does not. */
  lemma DictResultStatus(fields: map<string, Json>)
    ensures HandleServiceResult(Dict(fields)).status == 200 <==> GetTruthy(fields, "success")
    ensures HandleServiceResult(Dict(fields)).status == 500 <==> !GetTruthy(fields, "success")
  {
  }

  // ---------------------------------------------------------------------
  // Role guards
  // ---------------------------------------------------------------------

  const Admin: string := "ADMIN"
  const Finance: string := "FINANCE"
  const Sales: string := "SALES"

  /** Who the session belongs to. */
  datatype Principal = Anonymous | LoggedIn(username: string, role: string)

  /** A guard either lets the wrapped view run or answers with a status and
      never calls it. */
  datatype Decision = Proceed | Deny(status: int)

  /** `admin_required`: only an authenticated ADMIN gets through; everybody
      else, an anonymous caller included, is answered 403. */
  function AdminRequired(p: Principal): (d: Decision)
    ensures d.Proceed? <==> p.LoggedIn? && p.role == Admin
    ensures d.Deny? ==> d.status == 403
  {
    if p.Anonymous? || p.role != Admin then Deny(403) else Proceed
  }

  /** `finance_admin_required`: 401 for an anonymous caller, 403 for a role
      other than FINANCE or ADMIN, otherwise through. */
  function FinanceAdminRequired(p: Principal): (d: Decision)
    ensures d == Deny(401) <==> p.Anonymous?
    ensures d == Deny(403) <==> p.LoggedIn? && p.role != Finance && p.role != Admin
    ensures d.Proceed? <==> p.LoggedIn? && (p.role == Finance || p.role == Admin)
  {
    if p.Anonymous? then Deny(401)
    else if p.role != Finance && p.role != Admin then Deny(403)
    else Proceed
  }

  /** Whoever passes the ADMIN guard passes the FINANCE-or-ADMIN guard; the
      two refuse an anonymous caller with different codes. */
  lemma GuardsCompared(p: Principal)
    ensures AdminRequired(p).Proceed? ==> FinanceAdminRequired(p).Proceed?
    ensures p.Anonymous? ==> AdminRequired(p) == Deny(403) && FinanceAdminRequired(p) == Deny(401)
    ensures p.LoggedIn? ==> (AdminRequired(p).Deny? && FinanceAdminRequired(p).Deny? ==> AdminRequired(p) == FinanceAdminRequired(p))
  {
  }

  // ---------------------------------------------------------------------
  // Editable categories
  // ---------------------------------------------------------------------

  /** One entry of the role/category configuration; either key may be
      absent. */
  datatype ConfigItem = ConfigItem(category: Option<string>, writeRole: Option<string>)

  predicate TruthyCategory(c: Option<string>) {
    c.Some? && c.value != ""
  }

  /** The ADMIN answer: every truthy category of the configuration. */
  function AdminCategories(config: map<string, ConfigItem>): (cats: set<Option<string>>)
    ensures forall c :: c in cats ==> TruthyCategory(c)
    ensures forall k :: k in config && TruthyCategory(config[k].category) ==> config[k].category in cats
    ensures forall c :: c in cats ==> exists k :: k in config && config[k].category == c
  {
    set k | k in config && TruthyCategory(config[k].category) :: config[k].category
  }

  /** The answer for any other role: the category of every entry whose write
      role is that role, a missing category included. */
  ghost function RoleCategories(config: map<string, ConfigItem>, role: string): set<Option<string>> {
    CategoriesOf(config, config.Keys, role)
  }

  /** The categories of the entries among `keys` whose write role is `role`. */
  ghost function CategoriesOf(config: map<string, ConfigItem>, keys: set<string>, role: string): set<Option<string>> {
    set k | k in keys && k in config && config[k].writeRole == Some(role) :: config[k].category
  }

  lemma CategoriesOfOneMore(config: map<string, ConfigItem>, keys: set<string>, k: string, role: string)
    requires k in config
    ensures CategoriesOf(config, keys + {k}, role)
            == CategoriesOf(config, keys, role) + (if config[k].writeRole == Some(role) then {config[k].category} else {})
  {
    var extra := if config[k].writeRole == Some(role) then {config[k].category} else {};
    forall c | c in CategoriesOf(config, keys + {k}, role)
      ensures c in CategoriesOf(config, keys, role) + extra
    {
      var j :| j in keys + {k} && j in config && config[j].writeRole == Some(role) && config[j].category == c;
      if j != k {
        assert j in keys;
      }
    }
  }

  /** `get_editable_categories` for principal `p` under configuration
      `config` (the order of the returned list is not modelled). */
  method EditableCategories(p: Principal, config: map<string, ConfigItem>) returns (cats: set<Option<string>>)
    ensures p.Anonymous? ==> cats == {}
    ensures p.LoggedIn? && p.role == Admin ==> cats == AdminCategories(config)
    ensures p.LoggedIn? && p.role != Admin ==>
              forall c :: c in cats <==> exists k :: k in config && config[k].writeRole == Some(p.role) && config[k].category == c
  {
    if p.Anonymous? {
      return {};
    }
    var role := p.role;
    if role == Admin {
      return AdminCategories(config);
    }
    cats := {};
    var todo := config.Keys;
    while todo != {}
      invariant todo <= config.Keys
      invariant cats == CategoriesOf(config, config.Keys - todo, role)
      decreases todo
    {
      var k :| k in todo;
      CategoriesOfOneMore(config, config.Keys - todo, k, role);
      assert config.Keys - (todo - {k}) == (config.Keys - todo) + {k};
      if config[k].writeRole == Some(role) {
        cats := cats + {config[k].category};
      }
      todo := todo - {k};
    }
  }

  /** Every truthy category some role may edit is one ADMIN may edit. */
  lemma AdminCoversEveryRole(config: map<string, ConfigItem>, role: string, c: Option<string>)
    requires c in RoleCategories(config, role) && TruthyCategory(c)
    ensures c in AdminCategories(config)
  {
    var k :| k in config && config[k].writeRole == Some(role) && config[k].category == c;
    assert k in config && TruthyCategory(config[k].category);
  }

  /** Unlike the ADMIN answer, the answer for another role keeps an entry
      whose category is missing. */
  lemma MissingCategoryKeptForOtherRoles()
    ensures None in RoleCategories(map["k" := ConfigItem(None, Some(Sales))], Sales)
    ensures None !in AdminCategories(map["k" := ConfigItem(None, Some(Sales))])
  {
    var config := map["k" := ConfigItem(None, Some(Sales))];
    assert "k" in config && config["k"].writeRole == Some(Sales);
  }
}
