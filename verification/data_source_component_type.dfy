/**
 * internal/provider/data_source_component_type.go: the
 * risingwavecloud_component_type data source, which finds the ID of the
 * component type with a given CPU count and memory size. The client's answer
 * is a parameter.
 */
module ComponentTypeSource {
  import opened Wrappers
  import opened GoErrors
  import opened Tf
  import opened Framework
  import Text
  import Mgmt
  import InternalRegion
  import Fake

  /** DefaultTier: every lookup is made in the Standard tier. */
  const DefaultTier := Mgmt.Standard

  /** ComponentMenu: the component names, each in backquotes, for the error message. */
  const ComponentMenu := "`" + InternalRegion.ComponentCompute + "`, `" + InternalRegion.ComponentCompactor + "`, `"
    + InternalRegion.ComponentFrontend + "`, `" + InternalRegion.ComponentMeta + "`, `" + InternalRegion.ComponentEtcd + "`"

  /** ComponentTypeDataSourceModel. */
  datatype ComponentTypeModel = ComponentTypeModel(
    platform: Value<string>,
    region: Value<string>,
    component: Value<string>,
    vcpu: Value<int>,
    memoryGiB: Value<int>,
    id: Value<string>)

  /** The one client call the data source makes. */
  datatype Call = GetAvailableComponentTypes(region: string, tier: string, component: string)

  type TypeRun = Run<Call, ComponentTypeModel>

  /** An available type matches when its CPU is %d of vcpu and its memory is "%d GB" of memory_gib. */
  predicate Matches(c: Mgmt.AvailableComponentType, vcpu: int, memoryGiB: int)
  {
    c.cpu == Text.Decimal(vcpu) && c.memory == Text.Decimal(memoryGiB) + " GB"
  }

  /** The index of the first matching type, as the loop with its break finds it. */
  function FirstMatch(types: seq<Mgmt.AvailableComponentType>, vcpu: int, memoryGiB: int): (r: Option<nat>)
    ensures r.Some? ==> r.value < |types| && Matches(types[r.value], vcpu, memoryGiB)
    ensures r.Some? ==> forall j :: 0 <= j < r.value ==> !Matches(types[j], vcpu, memoryGiB)
    ensures r.None? <==> forall j :: 0 <= j < |types| ==> !Matches(types[j], vcpu, memoryGiB)
    decreases |types|
  {
    if |types| == 0 then None
    else if Matches(types[0], vcpu, memoryGiB) then Some(0)
    else match FirstMatch(types[1..], vcpu, memoryGiB)
      case None => None
      case Some(k) => Some(k + 1)
  }

  /** The validation Read makes before the lookup, in order: platform, region, component. */
  function Rejection(config: ComponentTypeModel): (d: Option<Diagnostic>)
    ensures ValueString(config.platform) == "" ==> d == Some(ErrorDiag("Missing platform", "Platform is required to setup the provider."))
    ensures ValueString(config.platform) != "" && ValueString(config.region) == "" ==>
      d == Some(ErrorDiag("Missing region", "Region is required to setup the provider."))
    ensures ValueString(config.platform) != "" && ValueString(config.region) != "" && ValueString(config.component) == "" ==>
      d == Some(ErrorDiag("Missing component", "Component is required to setup the provider. Valid values are: " + ComponentMenu))
    ensures d.None? <==> ValueString(config.platform) != "" && ValueString(config.region) != "" && ValueString(config.component) != ""
  {
    if |ValueString(config.platform)| == 0 then Some(ErrorDiag("Missing platform", "Platform is required to setup the provider."))
    else if |ValueString(config.region)| == 0 then Some(ErrorDiag("Missing region", "Region is required to setup the provider."))
    else if |ValueString(config.component)| == 0 then
      Some(ErrorDiag("Missing component", "Component is required to setup the provider. Valid values are: " + ComponentMenu))
    else None
  }

  /** The error when no available type matches. */
  function NotAvailable(config: ComponentTypeModel): Diagnostic
  {
    ErrorDiag("Cannot found the corresponding component type",
      "The component type " + ValueString(config.component) + " with CPU " + Text.Decimal(ValueInt64(config.vcpu))
      + " cores and memory " + Text.Decimal(ValueInt64(config.memoryGiB)) + " GB is not available for the tier " + DefaultTier)
  }

  /**
   * Read: validate, look the types up by region, Standard tier and
   * component (the platform is not passed), and store the first match's ID.
   */
  function Read(config: ComponentTypeModel, answer: Result<seq<Mgmt.AvailableComponentType>, Error>): (r: TypeRun)
    ensures Rejection(config).Some? ==> r == Stop([], Rejection(config).value)
    ensures Rejection(config).None? ==>
      r.calls == [GetAvailableComponentTypes(ValueString(config.region), DefaultTier, ValueString(config.component))]
    ensures Rejection(config).None? && answer.Err? ==>
      r.diags == [ErrorDiag("Failed to get available component types", ErrorText(answer.error))]
    ensures Rejection(config).None? && answer.Ok? && FirstMatch(answer.value, ValueInt64(config.vcpu), ValueInt64(config.memoryGiB)).None? ==>
      r.diags == [NotAvailable(config)] && r.write.Untouched?
    ensures r.write.Saved? <==>
      Rejection(config).None? && answer.Ok? && FirstMatch(answer.value, ValueInt64(config.vcpu), ValueInt64(config.memoryGiB)).Some?
    ensures r.write.Saved? ==>
      var k := FirstMatch(answer.value, ValueInt64(config.vcpu), ValueInt64(config.memoryGiB)).value;
      r.write.model == config.(id := Known(answer.value[k].id)) && r.diags == []
  {
    match Rejection(config)
    case Some(d) => Stop([], d)
    case None =>
      var calls := [GetAvailableComponentTypes(ValueString(config.region), DefaultTier, ValueString(config.component))];
      match answer
      case Err(e) => Stop(calls, ErrorDiag("Failed to get available component types", ErrorText(e)))
      case Ok(types) =>
        match FirstMatch(types, ValueInt64(config.vcpu), ValueInt64(config.memoryGiB))
        case None => Stop(calls, NotAvailable(config))
        case Some(k) => Done(calls, Saved(config.(id := Known(types[k].id))))
  }

  /** The platform is only checked for being set: any two set platforms give the same calls and errors. */
  lemma PlatformNotPassed(config: ComponentTypeModel, platform: string, answer: Result<seq<Mgmt.AvailableComponentType>, Error>)
    requires platform != "" && ValueString(config.platform) != ""
    ensures Read(config.(platform := Known(platform)), answer).calls == Read(config, answer).calls
    ensures Read(config.(platform := Known(platform)), answer).diags == Read(config, answer).diags
  {
  }

  /** Against the fake catalog, 2 vCPUs and 8 GiB select "p-2c8g" for every component. */
  lemma FakeCatalogSelects(config: ComponentTypeModel)
    requires ValueString(config.platform) != "" && ValueString(config.region) != ""
    requires ValueString(config.component) in {InternalRegion.ComponentCompute, InternalRegion.ComponentCompactor,
                                               InternalRegion.ComponentFrontend, InternalRegion.ComponentMeta, InternalRegion.ComponentEtcd}
    requires config.vcpu == Known(2) && config.memoryGiB == Known(8)
    ensures Read(config, Fake.GetAvailableComponentTypes(DefaultTier, ValueString(config.component))).write
            == Saved(config.(id := Known("p-2c8g")))
  {
    Fake.FakeCatalogEverywhere(DefaultTier, ValueString(config.component));
    assert Text.Decimal(2) == "2" && Text.Decimal(8) == "8";
    assert !Matches(Fake.Catalog[0], 2, 8);
    assert FirstMatch(Fake.Catalog, 2, 8) == Some(1);
  }
}
