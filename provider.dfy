/**
 * The provider's state models of a team role and their conversions to and
 * from the API entity. The description is the one field that changes shape:
 * an empty description on the API side is a null description in state.
 */
module Provider {
  import opened Base
  import opened Framework
  import opened Wire
  import Cortex

  /** The team role resource as Terraform state and plans hold it. */
  datatype TeamRoleResourceModel = TeamRoleResourceModel(id: Int64, tag: String, name: String, description: String, notificationsEnabled: Bool)
  {
    /**
     * The shape of every state written from the API: all fields known, except
     * a description that is either null or a known non-empty string.
     */
    predicate IsApiShaped() {
      && id.Known? && tag.Known? && name.Known? && notificationsEnabled.Known?
      && (description.Null? || (description.Known? && description.value != ""))
    }

    /**
     * `r.FromApiModel(entity)`, where `this` is the receiver before the call
     * and the result is the receiver after it. No field of the result depends
     * on `this`: every one is written from the entity.
     */
    function FromApiModel(entity: Cortex.TeamRole): (r: TeamRoleResourceModel)
      ensures r.id == Known(entity.id) && r.tag == Known(entity.tag) && r.name == Known(entity.name)
      ensures r.description.Null? <==> entity.description == ""
      ensures r.description.Known? <==> entity.description != ""
      ensures r.description.Known? ==> r.description.value == entity.description
      ensures r.notificationsEnabled == Known(entity.notificationsEnabled)
      ensures r.IsApiShaped()
    {
      TeamRoleResourceModel(
        Int64Value(entity.id),
        StringValue(entity.tag),
        StringValue(entity.name),
        if entity.description != "" then StringValue(entity.description) else StringNull(),
        if entity.notificationsEnabled then BoolValue(true) else BoolValue(false))
    }

    /** `r.ToApiModel()`: known fields carry over, null and unknown ones become 0, "" and false. */
    function ToApiModel(): (e: Cortex.TeamRole)
      ensures id.Known? ==> e.id == id.value
      ensures tag.Known? ==> e.tag == tag.value
      ensures name.Known? ==> e.name == name.value
      ensures description.Known? ==> e.description == description.value
      ensures notificationsEnabled.Known? ==> e.notificationsEnabled == notificationsEnabled.value
      ensures !id.Known? ==> e.id == 0
      ensures !tag.Known? ==> e.tag == ""
      ensures !name.Known? ==> e.name == ""
      ensures !description.Known? ==> e.description == ""
      ensures !notificationsEnabled.Known? ==> !e.notificationsEnabled
    {
      Cortex.TeamRole(
        ValueInt64(id),
        ValueString(name),
        ValueString(tag),
        ValueString(description),
        ValueBool(notificationsEnabled))
    }
  }

  /** `NewTeamRoleResourceModel()`: the Go zero value, in which every attribute is null. */
  function NewTeamRoleResourceModel(): (m: TeamRoleResourceModel)
    ensures m.id.Null? && m.tag.Null? && m.name.Null? && m.description.Null? && m.notificationsEnabled.Null?
  {
    TeamRoleResourceModel(Null, Null, Null, Null, Null)
  }

  /** Writing an entity into state and reading it back gives the entity. */
  lemma ToApiModelInvertsFromApiModel(prior: TeamRoleResourceModel, e: Cortex.TeamRole)
    ensures prior.FromApiModel(e).ToApiModel() == e
  {
  }

  /** The receiver's prior contents do not matter. */
  lemma FromApiModelOverwritesAll(a: TeamRoleResourceModel, b: TeamRoleResourceModel, e: Cortex.TeamRole)
    ensures a.FromApiModel(e) == b.FromApiModel(e)
  {
  }

  /**
   * Reading a state out and writing it back changes nothing exactly when the
   * state has the shape the API writes.
   */
  lemma RoundTripIffApiShaped(prior: TeamRoleResourceModel, m: TeamRoleResourceModel)
    ensures prior.FromApiModel(m.ToApiModel()) == m <==> m.IsApiShaped()
  {
    if m.IsApiShaped() {
      var e := m.ToApiModel();
      assert m.description.Null? ==> e.description == "";
    }
  }

  /** Converting back and forth a second time changes nothing more. */
  lemma FromApiModelIdempotent(prior: TeamRoleResourceModel, e: Cortex.TeamRole)
    ensures var m := prior.FromApiModel(e); m.FromApiModel(m.ToApiModel()) == m
  {
    RoundTripIffApiShaped(prior.FromApiModel(e), prior.FromApiModel(e));
  }

  /** A known empty description, which the API cannot hold, comes back as null. */
  lemma KnownEmptyDescriptionCollapses(prior: TeamRoleResourceModel, m: TeamRoleResourceModel)
    requires m.description == Known("")
    ensures prior.FromApiModel(m.ToApiModel()).description == Null
    ensures prior.FromApiModel(m.ToApiModel()) != m
  {
  }

  /** The team role data source as Terraform state holds it. */
  datatype TeamRoleDataSourceModel = TeamRoleDataSourceModel(id: Int64, tag: String, name: String, description: String, notificationsEnabled: Bool)
  {
    /**
     * `o.FromApiModel(entity)`: every field known and equal to the entity's,
     * the description too, even when it is empty.
     */
    function FromApiModel(entity: Cortex.TeamRole): (o: TeamRoleDataSourceModel)
      ensures o.id == Known(entity.id) && o.tag == Known(entity.tag) && o.name == Known(entity.name)
      ensures o.description == Known(entity.description)
      ensures o.notificationsEnabled == Known(entity.notificationsEnabled)
    {
      TeamRoleDataSourceModel(
        Int64Value(entity.id),
        StringValue(entity.tag),
        StringValue(entity.name),
        StringValue(entity.description),
        BoolValue(entity.notificationsEnabled))
    }
  }

  /**
   * The data source and the resource write the same state from an entity,
   * except the description, which they write differently exactly when it is empty.
   */
  lemma DataSourceAgreesWithResource(o: TeamRoleDataSourceModel, r: TeamRoleResourceModel, e: Cortex.TeamRole)
    ensures o.FromApiModel(e).id == r.FromApiModel(e).id
    ensures o.FromApiModel(e).tag == r.FromApiModel(e).tag
    ensures o.FromApiModel(e).name == r.FromApiModel(e).name
    ensures o.FromApiModel(e).notificationsEnabled == r.FromApiModel(e).notificationsEnabled
    ensures o.FromApiModel(e).description == r.FromApiModel(e).description <==> e.description != ""
  {
  }

  /**
   * A planned description that is null, unknown or empty is never sent: the
   * create and update bodies built from the plan have no description member.
   */
  lemma UnsetDescriptionNotSent(plan: TeamRoleResourceModel)
    requires !plan.description.Known? || plan.description.value == ""
    ensures Lookup(Cortex.CreateBody(plan.ToApiModel().ToCreateRequest()), "description") == None
    ensures Lookup(Cortex.UpdateBody(plan.ToApiModel().ToUpdateRequest()), "description") == None
  {
  }

  /**
   * A plan whose fields are all known is sent as it stands: the server reads
   * back the plan's own values, an empty description or a false flag included.
   */
  lemma KnownPlanSentAsIs(plan: TeamRoleResourceModel)
    requires plan.id.Known? && plan.tag.Known? && plan.name.Known?
    requires plan.description.Known? && plan.notificationsEnabled.Known?
    ensures Cortex.DecodeUpdateBody(Cortex.UpdateBody(plan.ToApiModel().ToUpdateRequest()))
         == Cortex.UpdateTeamRoleRequest(plan.id.value, plan.tag.value, plan.name.value,
                                         plan.description.value, plan.notificationsEnabled.value)
  {
    Cortex.UpdateBodyRoundTrip(plan.ToApiModel().ToUpdateRequest());
  }
}
