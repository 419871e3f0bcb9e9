/**
 * `finalizeZepetoUpload`: link the transferred file to an asset (with one
 * fallback create), trigger a build, then create the sellable item.
 */
module Finalize {
  import opened Wrappers
  import opened Js
  import opened Exchange

  /** `{ success, message }` as the action returns it. */
  datatype Outcome = Outcome(success: bool, message: string)

  const Published := "Sukses! Item berhasil dibypass dan dibuat."
  const LinkFailedPrefix := "Gagal Linking Asset: "
  const ItemFailedPrefix := "Gagal Create Item: "

  /** The link call is answered non-2xx with a readable body: the fallback create is tried. */
  predicate FallsBack(link: Reply)
  {
    ErrorAnswer(link) && link.body.text.Ok?
  }

  /** `(await res.json()).id` of a 2xx answer, or the message thrown. */
  function AssetIdOf(r: Reply): (a: Result<Prop, string>)
    requires OkAnswer(r)
    ensures r.body.json.Err? ==> a == Err(r.body.json.error)
    ensures r.body.json.Ok? && r.body.json.value.Obj? ==> a == Ok(Lookup(r.body.json.value.members, "id"))
    ensures r.body.json.Ok? && r.body.json.value.Null? ==> a == Err("Cannot read properties of null (reading 'id')")
    ensures r.body.json.Ok? && !r.body.json.value.Obj? && !r.body.json.value.Null? ==> a == Ok(Undefined)
  {
    match r.body.json
    case Err(m) => Err(m)
    case Ok(data) =>
      match GetProp(data, Id)
      case TypeError(m) =>
        assert "Cannot read properties of null (reading '" + FieldName(Id) + "')"
          == "Cannot read properties of null (reading 'id')";
        Err(m)
      case Got(p) => Ok(p)
  }

  /**
   * The asset id after the link step, or the fatal message. The id comes
   * from the link answer, or from the fallback create when the link was
   * refused; when both are refused the link's error text is reported.
   */
  function ResolveAsset(link: Reply, create: Reply): (r: Result<Prop, string>)
    ensures r.Ok? ==>
      (OkAnswer(link) && r == AssetIdOf(link)) ||
      (FallsBack(link) && OkAnswer(create) && r == AssetIdOf(create))
    ensures OkAnswer(link) ==> r == AssetIdOf(link)
    ensures FallsBack(link) && OkAnswer(create) ==> r == AssetIdOf(create)
    ensures FallsBack(link) && ErrorAnswer(create) ==> r == Err(LinkFailedPrefix + link.body.text.value)
    ensures link.Threw? ==> r == Err(link.message)
    ensures FallsBack(link) && create.Threw? ==> r == Err(create.message)
    ensures ErrorAnswer(link) && link.body.text.Err? ==> r == Err(link.body.text.error)
  {
    match link
    case Threw(m) => Err(m)
    case Answer(status, body) =>
      if IsOk(status) then AssetIdOf(link)
      else
        match body.text
        case Err(m) => Err(m)
        case Ok(err) =>
          match create
          case Threw(m) => Err(m)
          case Answer(createStatus, _) =>
            if IsOk(createStatus) then AssetIdOf(create) else Err(LinkFailedPrefix + err)
  }

  /** The fallback reply plays no part unless the link was refused. */
  lemma CreateIgnoredUnlessRefused(link: Reply, c1: Reply, c2: Reply)
    requires !FallsBack(link)
    ensures ResolveAsset(link, c1) == ResolveAsset(link, c2)
  {
  }

  /** The requests of the link step. */
  function LinkCalls(link: Reply): (cs: seq<Call>)
    ensures cs == [Link] || cs == [Link, Create]
    ensures Create in cs <==> FallsBack(link)
  {
    if FallsBack(link) then [Link, Create] else [Link]
  }

  /**
   * The item step: the fixed success message on 2xx; otherwise the
   * `message` field of the error body, or `Unknown` when it is missing,
   * falsy or the body is not JSON.
   */
  function ItemOutcome(item: Reply): (o: Outcome)
    ensures o.success <==> OkAnswer(item)
    ensures o.success ==> o.message == Published
    ensures item.Threw? ==> o.message == item.message
    ensures ErrorAnswer(item) && item.body.json.Err? ==> o.message == ItemFailedPrefix + "Unknown"
    ensures ErrorAnswer(item) && item.body.json.Ok? && item.body.json.value.Obj? ==>
      var m := Lookup(item.body.json.value.members, "message");
      (!Truthy(m) ==> o.message == ItemFailedPrefix + "Unknown") &&
      (Truthy(m) && !ConversionThrows(m) ==> o.message == ItemFailedPrefix + ToString(m).value) &&
      (ConversionThrows(m) ==> o.message == CannotConvert)
    ensures ErrorAnswer(item) && item.body.json.Ok? && !item.body.json.value.Obj? && !item.body.json.value.Null? ==>
      o.message == ItemFailedPrefix + "Unknown"
    ensures ErrorAnswer(item) && item.body.json.Ok? && item.body.json.value.Null? ==>
      o.message == "Cannot read properties of null (reading 'message')"
  {
    match item
    case Threw(m) => Outcome(false, m)
    case Answer(status, body) =>
      if IsOk(status) then Outcome(true, Published)
      else
        // `.json().catch(() => ({}))`
        var errData := match body.json case Ok(v) => v case Err(_) => Obj([]);
        match GetProp(errData, Message)
        case TypeError(m) =>
          assert "Cannot read properties of null (reading '" + FieldName(Message) + "')"
            == "Cannot read properties of null (reading 'message')";
          Outcome(false, m)
        case Got(message) =>
          match ToString(Or(message, Defined(Str("Unknown"))))
          case Err(m) => Outcome(false, m)
          case Ok(text) => Outcome(false, ItemFailedPrefix + text)
  }

  /**
   * The whole action over the four exchanges it may make. Whatever the
   * build call answers, only whether it threw can change the outcome. The
   * asset id is converted into the build URL before the build request, so
   * an id that cannot be converted stops the action there.
   */
  method FinalizeUpload(link: Reply, create: Reply, build: Reply, item: Reply)
    returns (outcome: Outcome, calls: seq<Call>)
    ensures |calls| >= 1 && calls[0] == Link
    ensures multiset(calls)[Create] == if FallsBack(link) then 1 else 0
    ensures FallsBack(link) && ErrorAnswer(create) ==>
      outcome == Outcome(false, LinkFailedPrefix + link.body.text.value) && calls == [Link, Create]
    ensures ResolveAsset(link, create).Err? ==>
      outcome == Outcome(false, ResolveAsset(link, create).error) && calls == LinkCalls(link)
    ensures ResolveAsset(link, create).Ok? && ConversionThrows(ResolveAsset(link, create).value) ==>
      outcome == Outcome(false, CannotConvert) && calls == LinkCalls(link)
    ensures ResolveAsset(link, create).Ok? && !ConversionThrows(ResolveAsset(link, create).value) && build.Threw? ==>
      var assetId := ResolveAsset(link, create).value;
      outcome == Outcome(false, build.message) && calls == LinkCalls(link) + [Build(assetId)]
    ensures ResolveAsset(link, create).Ok? && !ConversionThrows(ResolveAsset(link, create).value) && build.Answer? ==>
      var assetId := ResolveAsset(link, create).value;
      outcome == ItemOutcome(item) && calls == LinkCalls(link) + [Build(assetId), Item(assetId)]
    ensures outcome.success <==>
      ResolveAsset(link, create).Ok? && !ConversionThrows(ResolveAsset(link, create).value) &&
      build.Answer? && OkAnswer(item)
  {
    calls := [Link];
    var assetId: Prop := Defined(Str(""));
    match link {
      case Threw(m) =>
        return Outcome(false, m), calls;
      case Answer(status, body) =>
        if IsOk(status) {
          var a := AssetIdOf(link);
          if a.Err? {
            return Outcome(false, a.error), calls;
          }
          assetId := a.value;
        } else {
          if body.text.Err? {
            return Outcome(false, body.text.error), calls;
          }
          var err := body.text.value;
          // the one fallback: create the asset record directly
          calls := calls + [Create];
          match create {
            case Threw(m) =>
              return Outcome(false, m), calls;
            case Answer(createStatus, _) =>
              if !IsOk(createStatus) {
                return Outcome(false, LinkFailedPrefix + err), calls;
              }
              var a := AssetIdOf(create);
              if a.Err? {
                return Outcome(false, a.error), calls;
              }
              assetId := a.value;
          }
        }
    }

    // `${assetId}` in the build URL
    var segment := ToString(assetId);
    if segment.Err? {
      return Outcome(false, segment.error), calls;
    }

    // the build answer is not inspected; only a rejected fetch is fatal
    calls := calls + [Build(assetId)];
    if build.Threw? {
      return Outcome(false, build.message), calls;
    }

    calls := calls + [Item(assetId)];
    outcome := ItemOutcome(item);
  }
}
