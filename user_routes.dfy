/**
 * The user blueprint's decisions: the token wrapper, farm and tree creation
 * and update, the password and e-mail flows, the regional statistics with
 * their top-two treatments, and the statistics empty case. Lookups and
 * writes of the database are inputs, given as the values or the functions
 * the route calls.
 */
module UserRoutes {
  import opened Wrappers
  import opened PyValue
  import opened Http
  import Text
  import Ordered
  import Ranking
  import StatisticsModel

  // ---------------------------------------------------------------- token_required

  const InvalidIdentity: string := "Invalid authentication token identity format."

  /** int(v) on the values a token identity can hold; None when int() raises. */
  function PyInt(v: Value): (r: Option<int>)
    ensures v.Str? ==> r == Text.ParsePyInt(v.s)
    ensures v.Int? ==> r == Some(v.i)
    ensures v.PyNone? || v.List? || v.Dict? ==> r.None?
  {
    match v
    case Int(i) => Some(i)
    case Bool(b) => Some(if b then 1 else 0)
    case Float(x) => Some(if x >= 0.0 then x.Floor else -((-x).Floor))
    case Str(s) => Text.ParsePyInt(s)
    case _ => None
  }

  /**
   * What `@jwt_required()` decided before the wrapper body runs: the token
   * was rejected, and the extension answered with its own reply (401 for a
   * missing or expired token), or it was accepted with the identity it
   * carries. The extension's checks are not part of this model.
   */
  datatype JwtCheck = JwtRejected(reply: Reply) | JwtAccepted(identity: Value)

  /**
   * token_required: a rejected token never reaches the wrapper body; an
   * identity int() rejects answers 401 without running the route; otherwise
   * the route runs with the integer id.
   */
  function TokenRequired(jwt: JwtCheck, route: int -> Reply): (r: Reply)
    ensures jwt.JwtRejected? ==> r == jwt.reply
    ensures jwt.JwtAccepted? && PyInt(jwt.identity).None? ==> r == Json(401, InvalidIdentity)
    ensures jwt.JwtAccepted? && PyInt(jwt.identity).Some? ==> r == route(PyInt(jwt.identity).value)
  {
    match jwt
    case JwtRejected(reply) => reply
    case JwtAccepted(identity) =>
      match PyInt(identity)
      case None => Json(401, InvalidIdentity)
      case Some(id) => route(id)
  }

  /** The identity signin puts in a token, str(user_id), always passes the wrapper with that id. */
  lemma IssuedIdentityAccepted(userId: int, route: int -> Reply)
    ensures TokenRequired(JwtAccepted(Str(Text.IntToString(userId))), route) == route(userId)
  {
    Text.IntToStringParses(userId);
  }

  // ---------------------------------------------------------------- farms

  /** The four farm columns the create and update calls pass on. */
  datatype FarmFields = FarmFields(farmName: Value, locationDetails: Value, latitude: Value, longitude: Value)

  /** create_farm_route. `insert` is farm_model.create_farm, returning the new id or a falsy value. */
  function CreateFarm(userId: int, json: Value, insert: (int, FarmFields) -> Value): (r: Reply)
    ensures !json.Dict? ==> r == Crash
    ensures json.Dict? ==> (r == Json(400, "Farm name is required") <==> !Truthy(Get(json.entries, "farm_name")))
    ensures r.Created? ==> r.idKey == "farm_id" && Truthy(r.newId)
    ensures json.Dict? && Truthy(Get(json.entries, "farm_name")) ==>
      var fields := FarmFields(Get(json.entries, "farm_name"), Get(json.entries, "location_details"),
                               Get(json.entries, "latitude"), Get(json.entries, "longitude"));
      r == if Truthy(insert(userId, fields)) then Created("Farm created successfully", "farm_id", insert(userId, fields))
           else Json(500, "Failed to create farm")
  {
    match BodyDict(json)
    case None => Crash
    case Some(data) =>
      var farmName := Get(data, "farm_name");
      var locationDetails := Get(data, "location_details");
      var latitude := Get(data, "latitude");
      var longitude := Get(data, "longitude");
      if !Truthy(farmName) then Json(400, "Farm name is required")
      else
        var newFarmId := insert(userId, FarmFields(farmName, locationDetails, latitude, longitude));
        if Truthy(newFarmId) then Created("Farm created successfully", "farm_id", newFarmId)
        else Json(500, "Failed to create farm")
  }

  /** data.get(key, stored) for each of the four farm fields. */
  function MergeFarm(stored: FarmFields, data: seq<(string, Value)>): (m: FarmFields)
    ensures m.farmName == if Ordered.HasKey(data, "farm_name") then Get(data, "farm_name") else stored.farmName
    ensures m.locationDetails == if Ordered.HasKey(data, "location_details") then Get(data, "location_details") else stored.locationDetails
    ensures m.latitude == if Ordered.HasKey(data, "latitude") then Get(data, "latitude") else stored.latitude
    ensures m.longitude == if Ordered.HasKey(data, "longitude") then Get(data, "longitude") else stored.longitude
  {
    FarmFields(GetOr(data, "farm_name", stored.farmName),
               GetOr(data, "location_details", stored.locationDetails),
               GetOr(data, "latitude", stored.latitude),
               GetOr(data, "longitude", stored.longitude))
  }

  /** A body naming none of the fields changes nothing; merging the stored values back is a no-op. */
  lemma MergeFarmUnchanged(stored: FarmFields, data: seq<(string, Value)>)
    ensures (forall i | 0 <= i < |data| :: data[i].0 !in ["farm_name", "location_details", "latitude", "longitude"])
            ==> MergeFarm(stored, data) == stored
    ensures MergeFarm(MergeFarm(stored, data), data) == MergeFarm(stored, data)
  {
  }

  /** The PUT branch of manage_farm_route; `farm` is the caller's farm, if it exists. */
  function UpdateFarm(farm: Option<FarmFields>, json: Value, update: FarmFields -> bool): (r: Reply)
    ensures farm.None? ==> r == Json(404, "Farm not found or unauthorized")
    ensures farm.Some? && !json.Dict? ==> r == Crash
    ensures farm.Some? && json.Dict? ==>
      r == if update(MergeFarm(farm.value, json.entries)) then Json(200, "Farm updated successfully")
           else Json(500, "Update failed")
  {
    match farm
    case None => Json(404, "Farm not found or unauthorized")
    case Some(stored) =>
      match BodyDict(json)
      case None => Crash
      case Some(data) =>
        if update(MergeFarm(stored, data)) then Json(200, "Farm updated successfully")
        else Json(500, "Update failed")
  }

  // ---------------------------------------------------------------- trees

  datatype TreeFields = TreeFields(treeName: Value, ageYears: Value, plantingDate: Value)

  /**
   * create_tree_route. `ownsFarm(farm_id, user)` is the ownership lookup and
   * `insert` is tree_model.create_tree.
   */
  function CreateTree(userId: int, json: Value, ownsFarm: (Value, int) -> bool,
                      insert: (Value, TreeFields) -> Value): (r: Reply)
    ensures !json.Dict? ==> r == Crash
    ensures json.Dict? ==>
      (r == Json(400, "Farm ID and tree name are required")
       <==> !Truthy(Get(json.entries, "farm_id")) || !Truthy(Get(json.entries, "tree_name")))
    ensures json.Dict? && Truthy(Get(json.entries, "farm_id")) && Truthy(Get(json.entries, "tree_name")) ==>
      (r == Json(404, "Farm not found or unauthorized") <==> !ownsFarm(Get(json.entries, "farm_id"), userId))
    ensures r.Created? ==>
      && r.idKey == "tree_id" && Truthy(r.newId) && json.Dict?
      && Truthy(Get(json.entries, "farm_id")) && Truthy(Get(json.entries, "tree_name"))
      && ownsFarm(Get(json.entries, "farm_id"), userId)
    ensures json.Dict? && Truthy(Get(json.entries, "farm_id")) && Truthy(Get(json.entries, "tree_name"))
            && ownsFarm(Get(json.entries, "farm_id"), userId) ==>
      var fields := TreeFields(Get(json.entries, "tree_name"), Get(json.entries, "age_years"),
                               Get(json.entries, "planting_date"));
      var newId := insert(Get(json.entries, "farm_id"), fields);
      && (Truthy(newId) ==> r == Created("Tree created successfully", "tree_id", newId))
      && (!Truthy(newId) ==> r == Json(500, "Failed to create tree"))
  {
    match BodyDict(json)
    case None => Crash
    case Some(data) =>
      var farmId := Get(data, "farm_id");
      var fields := TreeFields(Get(data, "tree_name"), Get(data, "age_years"), Get(data, "planting_date"));
      if !(Truthy(farmId) && Truthy(fields.treeName)) then Json(400, "Farm ID and tree name are required")
      else if !ownsFarm(farmId, userId) then Json(404, "Farm not found or unauthorized")
      else
        var newTreeId := insert(farmId, fields);
        if Truthy(newTreeId) then Created("Tree created successfully", "tree_id", newTreeId)
        else Json(500, "Failed to create tree")
  }

  /** A stored tree: the farm it belongs to and its three editable fields. */
  datatype TreeRow = TreeRow(farmId: Value, fields: TreeFields)

  function MergeTree(stored: TreeFields, data: seq<(string, Value)>): (m: TreeFields)
    ensures m.treeName == if Ordered.HasKey(data, "tree_name") then Get(data, "tree_name") else stored.treeName
    ensures m.ageYears == if Ordered.HasKey(data, "age_years") then Get(data, "age_years") else stored.ageYears
    ensures m.plantingDate == if Ordered.HasKey(data, "planting_date") then Get(data, "planting_date") else stored.plantingDate
  {
    TreeFields(GetOr(data, "tree_name", stored.treeName),
               GetOr(data, "age_years", stored.ageYears),
               GetOr(data, "planting_date", stored.plantingDate))
  }

  lemma MergeTreeUnchanged(stored: TreeFields, data: seq<(string, Value)>)
    ensures (forall i | 0 <= i < |data| :: data[i].0 !in ["tree_name", "age_years", "planting_date"])
            ==> MergeTree(stored, data) == stored
    ensures MergeTree(MergeTree(stored, data), data) == MergeTree(stored, data)
  {
  }

  /** The PUT branch of manage_tree_route: the tree must exist, then its farm must be the caller's. */
  function UpdateTree(userId: int, tree: Option<TreeRow>, ownsFarm: (Value, int) -> bool, json: Value,
                      update: TreeFields -> bool): (r: Reply)
    ensures tree.None? ==> r == Json(404, "Tree not found")
    ensures tree.Some? && !ownsFarm(tree.value.farmId, userId) ==> r == Json(404, "Tree not found or unauthorized access")
    ensures tree.Some? && ownsFarm(tree.value.farmId, userId) && json.Dict? ==>
      r == if update(MergeTree(tree.value.fields, json.entries)) then Json(200, "Tree updated successfully")
           else Json(500, "Update failed")
    ensures r.Json? && r.status == 200 ==> tree.Some? && ownsFarm(tree.value.farmId, userId)
  {
    match tree
    case None => Json(404, "Tree not found")
    case Some(row) =>
      if !ownsFarm(row.farmId, userId) then Json(404, "Tree not found or unauthorized access")
      else
        match BodyDict(json)
        case None => Crash
        case Some(data) =>
          if update(MergeTree(row.fields, data)) then Json(200, "Tree updated successfully")
          else Json(500, "Update failed")
  }

  // ---------------------------------------------------------------- password and e-mail

  /** len(v); None when the value has no length (len raises TypeError). */
  function PyLen(v: Value): (n: Option<nat>)
    ensures v.Str? ==> n == Some(|v.s|)
  {
    match v
    case Str(s) => Some(|s|)
    case List(items) => Some(|items|)
    case Dict(entries) => Some(|entries|)
    case _ => None
  }

  const MinPasswordLength: nat := 6

  /**
   * update_user_password_route. `storedHash` is the caller's password hash
   * (None when the user is gone), `verify` checks a password against it, and
   * `store` writes the new password.
   */
  function UpdatePassword(json: Value, storedHash: Option<Value>, verify: (Value, Value) -> bool,
                          store: Value -> bool): (r: Reply)
    ensures !json.Dict? ==> r == Crash
    ensures json.Dict? ==>
      var current := Get(json.entries, "current_password");
      var newPassword := Get(json.entries, "new_password");
      && (!Truthy(current) || !Truthy(newPassword) ==> r == Json(400, "Invalid password data provided"))
      && (newPassword.Str? && Truthy(current) ==>
            (r == Json(400, "Invalid password data provided") <==> |newPassword.s| < MinPasswordLength))
      && (r == Json(200, "Password updated successfully. Please log in again.") ==>
            storedHash.Some? && verify(storedHash.value, current) && store(newPassword))
      && (newPassword.Str? && Truthy(current) && |newPassword.s| >= MinPasswordLength ==>
            (r == Json(401, "Invalid current password") <==> storedHash.None? || !verify(storedHash.value, current)))
      && (Truthy(current) && Truthy(newPassword) && PyLen(newPassword).None? ==> r == Crash)
      && (Truthy(current) && Truthy(newPassword) && PyLen(newPassword).Some?
          && PyLen(newPassword).value >= MinPasswordLength && storedHash.Some? && verify(storedHash.value, current) ==>
            && (store(newPassword) ==> r == Json(200, "Password updated successfully. Please log in again."))
            && (!store(newPassword) ==> r == Json(500, "Failed to update password due to server error")))
  {
    match BodyDict(json)
    case None => Crash
    case Some(data) =>
      var current := Get(data, "current_password");
      var newPassword := Get(data, "new_password");
      if !(Truthy(current) && Truthy(newPassword)) then Json(400, "Invalid password data provided")
      else match PyLen(newPassword)
        case None => Crash
        case Some(n) =>
          if n < MinPasswordLength then Json(400, "Invalid password data provided")
          else if storedHash.Some? && verify(storedHash.value, current) then
            if store(newPassword) then Json(200, "Password updated successfully. Please log in again.")
            else Json(500, "Failed to update password due to server error")
          else Json(401, "Invalid current password")
  }

  /** send_email_verification_code_route; `userExists` is the caller's lookup. */
  function SendEmailCode(json: Value, userExists: bool): (r: Reply)
    ensures json.Dict? ==>
      (r == Json(200, "Verification code sent to your new email address.")
       <==> Truthy(Get(json.entries, "new_email")) && userExists)
    ensures json.Dict? ==> r.Json? && (r.status == 200 || r == Json(400, "Invalid user or email provided."))
    ensures !json.Dict? ==> r == Crash
  {
    match BodyDict(json)
    case None => Crash
    case Some(data) =>
      if !Truthy(Get(data, "new_email")) || !userExists then Json(400, "Invalid user or email provided.")
      else Json(200, "Verification code sent to your new email address.")
  }

  /** The mock verification code. */
  const VerificationCode: string := "123456"

  /** confirm_email_change_route: succeeds exactly for the string '123456'; any other value is 401. */
  function ConfirmEmailChange(json: Value): (r: Reply)
    ensures json.Dict? ==> (Code(r) == 200 <==> Get(json.entries, "code") == Str(VerificationCode))
    ensures json.Dict? ==> (Code(r) == 401 <==> Get(json.entries, "code") != Str(VerificationCode))
    ensures !json.Dict? ==> r == Crash
  {
    match BodyDict(json)
    case None => Crash
    case Some(data) =>
      if Get(data, "code") == Str(VerificationCode) then
        Json(200, "Email address updated and verified successfully! Please log in again.")
      else Json(401, "Invalid verification code.")
  }

  // ---------------------------------------------------------------- regional statistics

  /** A disease_model row: the two treatment texts. */
  datatype Treatment = Treatment(organic: Value, chemical: Value)

  datatype TopTreatment = TopTreatment(name: string, count: nat, organic: Value, chemical: Value)

  datatype RegionalReply =
    | RegionalError(reply: Reply)
    | RegionalData(regionalData: seq<(string, nat)>, topTreatments: seq<TopTreatment>, message: string)

  function CountKey(item: (string, nat)): real { item.1 as real }

  /** The entries the loop keeps: those with a treatment record, in the order given. */
  function WithTreatment(items: seq<(string, nat)>, lookup: string -> Option<Treatment>): seq<TopTreatment>
    decreases |items|
  {
    if items == [] then []
    else
      var last := items[|items| - 1];
      var before := WithTreatment(items[..|items| - 1], lookup);
      match lookup(last.0)
      case Some(t) => before + [TopTreatment(last.0, last.1, t.organic, t.chemical)]
      case None => before
  }

  /** sorted(regional_data.items(), key=count, reverse=True)[:2] */
  function TopTwo(regional: seq<(string, nat)>): (r: seq<(string, nat)>)
    ensures |r| <= 2
  {
    var sorted := Ranking.SortDesc(regional, CountKey);
    if |sorted| <= 2 then sorted else sorted[..2]
  }

  /**
   * The two entries picked are the highest counts: as many as there are, up
   * to two, taken from the data in non-increasing count order, no count left
   * out exceeds a picked one, and among equal counts the earlier entries of
   * the data come first.
   */
  lemma TopTwoHighest(regional: seq<(string, nat)>)
    ensures var top := TopTwo(regional);
      && |top| == (if |regional| < 2 then |regional| else 2)
      && multiset(top) <= multiset(regional)
      && (forall j, k | 0 <= j < k < |top| :: top[j].1 >= top[k].1)
      && (forall i, j | 0 <= i < |regional| && 0 <= j < |top| && regional[i] !in top :: regional[i].1 <= top[j].1)
      && (forall c :: Ranking.WithKey(top, CountKey, c) <= Ranking.WithKey(regional, CountKey, c))
  {
    var sorted := Ranking.SortDesc(regional, CountKey);
    Ranking.SortDescCorrect(regional, CountKey);
    var top := TopTwo(regional);
    var m := |top|;
    assert top == sorted[..m];
    assert sorted == top + sorted[m..];
    assert multiset(sorted) == multiset(top) + multiset(sorted[m..]);
    forall j, k | 0 <= j < k < m
      ensures top[j].1 >= top[k].1
    {
      assert CountKey(sorted[j]) >= CountKey(sorted[k]);
    }
    forall i, j | 0 <= i < |regional| && 0 <= j < m && regional[i] !in top
      ensures regional[i].1 <= top[j].1
    {
      assert regional[i] in multiset(sorted);
      var p :| 0 <= p < |sorted| && sorted[p] == regional[i];
      assert CountKey(sorted[j]) >= CountKey(sorted[p]);
    }
    forall c
      ensures Ranking.WithKey(top, CountKey, c) <= Ranking.WithKey(regional, CountKey, c)
    {
      Ranking.WithKeyPrefix(sorted, CountKey, c, m);
    }
  }

  /** Every entry with a treatment record is kept, with that record's texts. */
  lemma {:induction false} WithTreatmentComplete(items: seq<(string, nat)>, lookup: string -> Option<Treatment>)
    ensures forall i | 0 <= i < |items| && lookup(items[i].0).Some? ::
      TopTreatment(items[i].0, items[i].1, lookup(items[i].0).value.organic, lookup(items[i].0).value.chemical)
        in WithTreatment(items, lookup)
    decreases |items|
  {
    if items != [] {
      var init := items[..|items| - 1];
      WithTreatmentComplete(init, lookup);
      var before := WithTreatment(init, lookup);
      var all := WithTreatment(items, lookup);
      assert before <= all;
      forall i | 0 <= i < |items| && lookup(items[i].0).Some?
        ensures TopTreatment(items[i].0, items[i].1, lookup(items[i].0).value.organic,
                             lookup(items[i].0).value.chemical) in all
      {
        if i < |init| {
          assert items[i] == init[i];
        }
      }
    }
  }

  /**
   * The kept entries are, in order, entries of the list they came from, each
   * with its treatment, and every entry with a treatment record is kept.
   */
  lemma {:induction false} WithTreatmentFacts(items: seq<(string, nat)>, lookup: string -> Option<Treatment>)
    ensures |WithTreatment(items, lookup)| <= |items|
    ensures forall j | 0 <= j < |WithTreatment(items, lookup)| ::
      var t := WithTreatment(items, lookup)[j];
      (t.name, t.count) in items && lookup(t.name).Some?
      && t.organic == lookup(t.name).value.organic && t.chemical == lookup(t.name).value.chemical
    ensures forall j, k | 0 <= j < k < |WithTreatment(items, lookup)| ::
      exists a, b | 0 <= a < b < |items| ::
        (WithTreatment(items, lookup)[j].name, WithTreatment(items, lookup)[j].count) == items[a]
        && (WithTreatment(items, lookup)[k].name, WithTreatment(items, lookup)[k].count) == items[b]
    ensures forall i | 0 <= i < |items| && lookup(items[i].0).Some? ::
      TopTreatment(items[i].0, items[i].1, lookup(items[i].0).value.organic, lookup(items[i].0).value.chemical)
        in WithTreatment(items, lookup)
    decreases |items|
  {
    if items != [] {
      var init := items[..|items| - 1];
      WithTreatmentFacts(init, lookup);
      var before := WithTreatment(init, lookup);
      var all := WithTreatment(items, lookup);
      WithTreatmentComplete(items, lookup);
      forall j | 0 <= j < |all|
        ensures (all[j].name, all[j].count) in items
      {
        if j < |before| {
          assert all[j] == before[j];
          assert (all[j].name, all[j].count) in init;
        }
      }
      forall j, k | 0 <= j < k < |all|
        ensures exists a, b | 0 <= a < b < |items| ::
          (all[j].name, all[j].count) == items[a] && (all[k].name, all[k].count) == items[b]
      {
        assert all[j] == before[j];
        if k < |before| {
          assert all[k] == before[k];
          var a, b :| 0 <= a < b < |init| &&
            (before[j].name, before[j].count) == init[a] && (before[k].name, before[k].count) == init[b];
          assert items[a] == init[a] && items[b] == init[b];
        } else {
          var a :| 0 <= a < |init| && (before[j].name, before[j].count) == init[a];
          assert items[a] == init[a];
          assert (all[k].name, all[k].count) == items[|items| - 1];
        }
      }
    }
  }

  /**
   * top_treatments: at most two entries, in non-increasing count order, each
   * a disease of the top two with a treatment record and with the count
   * regional_data holds; every top-two disease with a record is listed.
   */
  lemma TopTreatmentsMeaning(regional: seq<(string, nat)>, lookup: string -> Option<Treatment>)
    requires Ordered.UniqueKeys(regional)
    ensures var top := WithTreatment(TopTwo(regional), lookup);
      && |top| <= 2
      && (forall j | 0 <= j < |top| ::
            && Ordered.Get(regional, top[j].name) == Some(top[j].count) && lookup(top[j].name).Some?
            && (top[j].name, top[j].count) in TopTwo(regional))
      && (forall j, k | 0 <= j < k < |top| :: top[j].count >= top[k].count)
      && (forall e | e in TopTwo(regional) && lookup(e.0).Some? ::
            TopTreatment(e.0, e.1, lookup(e.0).value.organic, lookup(e.0).value.chemical) in top)
  {
    var sorted := Ranking.SortDesc(regional, CountKey);
    Ranking.SortDescCorrect(regional, CountKey);
    var two := TopTwo(regional);
    assert two <= sorted;
    WithTreatmentFacts(two, lookup);
    var top := WithTreatment(two, lookup);
    forall j | 0 <= j < |top|
      ensures Ordered.Get(regional, top[j].name) == Some(top[j].count)
    {
      var e := (top[j].name, top[j].count);
      assert e in sorted;
      assert e in multiset(regional);
      var i :| 0 <= i < |regional| && regional[i] == e;
    }
    forall j, k | 0 <= j < k < |top|
      ensures top[j].count >= top[k].count
    {
      var a, b :| 0 <= a < b < |two| &&
        (top[j].name, top[j].count) == two[a] && (top[k].name, top[k].count) == two[b];
      assert CountKey(sorted[a]) >= CountKey(sorted[b]);
    }
  }

  const RegionRadiusKm: real := 5.0

  /**
   * get_regional_statistics_route. The query arguments are None when absent;
   * `scans` are the coordinate-query rows, `lookup` is
   * disease_model.get_disease_by_name.
   */
  method RegionalStatistics(latitude: Option<string>, longitude: Option<string>,
                            parseFloat: string -> Option<real>, scans: seq<StatisticsModel.ScanRow>,
                            distance: (StatisticsModel.Point, StatisticsModel.Point) -> real,
                            lookup: string -> Option<Treatment>)
    returns (r: RegionalReply)
    ensures latitude.None? || latitude == Some("") || longitude.None? || longitude == Some("") ==>
      r == RegionalError(Json(400, "Latitude and longitude are required for regional analysis."))
    ensures r.RegionalError? && r.reply == Json(400, "Invalid latitude or longitude format.") <==>
      && latitude.Some? && latitude != Some("") && longitude.Some? && longitude != Some("")
      && (parseFloat(latitude.value).None? || parseFloat(longitude.value).None?)
    ensures
      (&& latitude.Some? && latitude != Some("") && longitude.Some? && longitude != Some("")
       && parseFloat(latitude.value).Some? && parseFloat(longitude.value).Some?)
      ==> r.RegionalData?
    ensures r.RegionalData? ==>
      && latitude.Some? && longitude.Some?
      && parseFloat(latitude.value).Some? && parseFloat(longitude.value).Some?
      && var target := StatisticsModel.Point(parseFloat(latitude.value).value, parseFloat(longitude.value).value);
      && r.regionalData == StatisticsModel.RegionalCounts(target, scans, RegionRadiusKm, parseFloat, distance)
      && r.topTreatments == WithTreatment(TopTwo(r.regionalData), lookup)
      && (r.regionalData == [] <==> r.message == "No diseased scans found in the 5km radius.")
      && (r.regionalData != [] <==> r.message == "Regional data retrieved successfully.")
  {
    if latitude.None? || latitude == Some("") || longitude.None? || longitude == Some("") {
      return RegionalError(Json(400, "Latitude and longitude are required for regional analysis."));
    }
    var targetLat := parseFloat(latitude.value);
    var targetLon := parseFloat(longitude.value);
    if targetLat.None? || targetLon.None? {
      return RegionalError(Json(400, "Invalid latitude or longitude format."));
    }
    var target := StatisticsModel.Point(targetLat.value, targetLon.value);
    var regionalData := StatisticsModel.RegionalDiseaseData(target, scans, RegionRadiusKm, parseFloat, distance);
    var topTreatments: seq<TopTreatment> := [];
    if regionalData != [] {
      var top2 := TopTwo(regionalData);
      for i := 0 to |top2|
        invariant topTreatments == WithTreatment(top2[..i], lookup)
      {
        assert top2[..i + 1][..i] == top2[..i];
        var treatment := lookup(top2[i].0);
        if treatment.Some? {
          topTreatments := topTreatments
            + [TopTreatment(top2[i].0, top2[i].1, treatment.value.organic, treatment.value.chemical)];
        }
      }
      assert top2[..|top2|] == top2;
    }
    if regionalData == [] {
      return RegionalData([], [], "No diseased scans found in the 5km radius.");
    }
    r := RegionalData(regionalData, topTreatments, "Regional data retrieved successfully.");
  }

  // ---------------------------------------------------------------- statistics

  datatype StatisticsReply =
    | StatisticsError(reply: Reply)
    | Statistics(message: Option<string>, totalScans: Value, diseaseDistribution: Value, treeScanCounts: Value)

  const NoScansMessage: string := "No scans found for the selected period."
  const StatisticsFailed: string := "Failed to retrieve statistics data due to a server error."

  /** `v == 0` in Python: the integer 0, False and 0.0 all compare equal to 0. */
  predicate IsZero(v: Value) {
    v == Int(0) || v == Bool(false) || v == Float(0.0)
  }

  /**
   * get_user_total_scans once its query has run: `row` is the fetched row,
   * None when execute_query failed. The row's total, or 0 when there is no
   * row or it has no total column.
   */
  function UserTotalScans(row: Option<seq<(string, Value)>>): (total: Value)
    ensures row.None? ==> total == Int(0)
    ensures row.Some? && Ordered.HasKey(row.value, "total") ==> total == Get(row.value, "total")
    ensures row.Some? && !Ordered.HasKey(row.value, "total") ==> total == Int(0)
  {
    if row.Some? && row.value != [] && Ordered.HasKey(row.value, "total") then Get(row.value, "total")
    else Int(0)
  }

  /**
   * get_user_statistics_route as written, given the total it received. The
   * two breakdown queries are consulted only for a non-zero total.
   */
  function UserStatistics(total: Value, distribution: Value, treeCounts: Value): (r: StatisticsReply)
    ensures total.PyNone? <==> r == StatisticsError(Json(500, StatisticsFailed))
    ensures IsZero(total) ==> r == Statistics(Some(NoScansMessage), Int(0), Dict([]), List([]))
    ensures r.Statistics? && r.message.None? <==> !total.PyNone? && !IsZero(total)
    ensures r.Statistics? && r.message.None? ==>
      r.totalScans == total && r.diseaseDistribution == distribution && r.treeScanCounts == treeCounts
  {
    if total.PyNone? then StatisticsError(Json(500, StatisticsFailed))
    else if IsZero(total) then Statistics(Some(NoScansMessage), Int(0), Dict([]), List([]))
    else Statistics(None, total, distribution, treeCounts)
  }

  /**
   * As written, a failed count query is reported as an empty period: the
   * getter turns execute_query's None into 0 before the route can see it, so
   * the route's 500 answers only a row whose total column holds None, which
   * COUNT(*) never yields.
   */
  lemma FailedCountReadsAsNoScans(row: Option<seq<(string, Value)>>, distribution: Value, treeCounts: Value)
    ensures UserStatistics(UserTotalScans(None), distribution, treeCounts)
            == Statistics(Some(NoScansMessage), Int(0), Dict([]), List([]))
    ensures UserStatistics(UserTotalScans(row), distribution, treeCounts).StatisticsError? <==>
      row.Some? && Ordered.HasKey(row.value, "total") && Get(row.value, "total") == PyNone
  {
  }

  /**
   * The statistics route with the query's failure kept apart from a zero
   * count: a failed query answers 500, and the empty-period reply means the
   * database counted no scans.
   */
  function StatisticsOfQuery(row: Option<seq<(string, Value)>>, distribution: Value, treeCounts: Value)
    : (r: StatisticsReply)
    ensures row.None? ==> r == StatisticsError(Json(500, StatisticsFailed))
    ensures r.Statistics? && r.message.Some? ==> row.Some? && IsZero(UserTotalScans(row))
    ensures r.Statistics? && r.message.None? ==>
      && row.Some? && Ordered.HasKey(row.value, "total") && !IsZero(Get(row.value, "total"))
      && r.totalScans == Get(row.value, "total")
  {
    if row.None? then StatisticsError(Json(500, StatisticsFailed))
    else UserStatistics(UserTotalScans(row), distribution, treeCounts)
  }
}
