/**
 * The scope package: a tenant, org and user identifier and a system flag
 * carried in a context under the package's own keys, read back trimmed, and
 * the actor claims built from them.
 */
module Scope {
  import opened Wrappers
  import opened Text
  import opened Values
  import GateTypes

  /** The metadata field names a scope is read from in a plain map. */
  const MetadataTenantID := "tenant_id"
  const MetadataOrgID := "org_id"
  const MetadataUserID := "user_id"

  /** The package's private context keys; no other package can write them. */
  datatype ContextKey = SystemKey | TenantIDKey | OrgIDKey | UserIDKey

  /**
   * A context as this package sees it: the innermost value stored under each
   * of its keys. context.WithValue shadows an outer value, so storing under a
   * key replaces the entry.
   */
  datatype Context = Context(values: map<ContextKey, Val>)

  const Background := Context(map[])

  /** ctx.Value(key): nil when nothing is stored. */
  function Lookup(ctx: Context, key: ContextKey): Val {
    if key in ctx.values then ctx.values[key] else Nil
  }

  /** toString: a stored string, trimmed; "" for nil or any other type. */
  function ToString(value: Val): (r: string)
    ensures IsTrimmed(r)
    ensures value.Str? ==> r == TrimSpace(value.s)
    ensures !value.Str? ==> r == ""
  {
    TrimSpaceTrimmed(if value.Str? then value.s else "");
    if value.Str? then TrimSpace(value.s) else ""
  }

  /** toBool: a stored bool; false for nil or any other type. */
  function ToBool(value: Val): (r: bool)
    ensures r <==> value == Bool(true)
  {
    if value.Bool? then value.b else false
  }

  // ---------------------------------------------------------------- accessors

  function TenantID(ctx: Context): (r: string)
    ensures IsTrimmed(r)
    ensures TenantIDKey !in ctx.values ==> r == ""
  {
    ToString(Lookup(ctx, TenantIDKey))
  }

  function OrgID(ctx: Context): (r: string)
    ensures IsTrimmed(r)
    ensures OrgIDKey !in ctx.values ==> r == ""
  {
    ToString(Lookup(ctx, OrgIDKey))
  }

  function UserID(ctx: Context): (r: string)
    ensures IsTrimmed(r)
    ensures UserIDKey !in ctx.values ==> r == ""
  {
    ToString(Lookup(ctx, UserIDKey))
  }

  function System(ctx: Context): (r: bool)
    ensures r <==> SystemKey in ctx.values && ctx.values[SystemKey] == Bool(true)
  {
    ToBool(Lookup(ctx, SystemKey))
  }

  // ---------------------------------------------------------------- writers

  /**
   * The shared shape of WithTenantID, WithOrgID and WithUserID: a blank id
   * leaves the context as it is, any other id is stored trimmed, and no
   * other key is touched.
   */
  function WithID(ctx: Context, key: ContextKey, id: string): (r: Context)
    requires key != SystemKey
    ensures IsBlank(id) ==> r == ctx
    ensures !IsBlank(id) ==> ToString(Lookup(r, key)) == TrimSpace(id) && TrimSpace(id) != ""
    ensures forall k :: k != key ==> Lookup(r, k) == Lookup(ctx, k)
  {
    var trimmed := TrimSpace(id);
    TrimSpaceEmptyIffBlank(id);
    TrimSpaceIdempotent(id);
    if trimmed == "" then ctx else Context(ctx.values[key := Str(trimmed)])
  }

  function WithTenantID(ctx: Context, tenantID: string): (r: Context)
    ensures TenantID(r) == (if IsBlank(tenantID) then TenantID(ctx) else TrimSpace(tenantID))
    ensures OrgID(r) == OrgID(ctx) && UserID(r) == UserID(ctx) && System(r) == System(ctx)
  {
    WithID(ctx, TenantIDKey, tenantID)
  }

  function WithOrgID(ctx: Context, orgID: string): (r: Context)
    ensures OrgID(r) == (if IsBlank(orgID) then OrgID(ctx) else TrimSpace(orgID))
    ensures TenantID(r) == TenantID(ctx) && UserID(r) == UserID(ctx) && System(r) == System(ctx)
  {
    WithID(ctx, OrgIDKey, orgID)
  }

  function WithUserID(ctx: Context, userID: string): (r: Context)
    ensures UserID(r) == (if IsBlank(userID) then UserID(ctx) else TrimSpace(userID))
    ensures TenantID(r) == TenantID(ctx) && OrgID(r) == OrgID(ctx) && System(r) == System(ctx)
  {
    WithID(ctx, UserIDKey, userID)
  }

  function WithSystem(ctx: Context, system: bool): (r: Context)
    ensures System(r) == system
    ensures TenantID(r) == TenantID(ctx) && OrgID(r) == OrgID(ctx) && UserID(r) == UserID(ctx)
  {
    Context(ctx.values[SystemKey := Bool(system)])
  }

  /** ClearTenantID: "" is stored, shadowing any outer id. */
  function ClearTenantID(ctx: Context): (r: Context)
    ensures TenantID(r) == "" && TenantIDKey in r.values
    ensures OrgID(r) == OrgID(ctx) && UserID(r) == UserID(ctx) && System(r) == System(ctx)
  {
    Context(ctx.values[TenantIDKey := Str("")])
  }

  function ClearOrgID(ctx: Context): (r: Context)
    ensures OrgID(r) == "" && OrgIDKey in r.values
    ensures TenantID(r) == TenantID(ctx) && UserID(r) == UserID(ctx) && System(r) == System(ctx)
  {
    Context(ctx.values[OrgIDKey := Str("")])
  }

  function ClearUserID(ctx: Context): (r: Context)
    ensures UserID(r) == "" && UserIDKey in r.values
    ensures TenantID(r) == TenantID(ctx) && OrgID(r) == OrgID(ctx) && System(r) == System(ctx)
  {
    Context(ctx.values[UserIDKey := Str("")])
  }

  // ---------------------------------------------------------------- claims

  /** ClaimsFromContext; `None` is a nil context, which yields empty claims. */
  function ClaimsFromContext(ctx: Option<Context>): (r: GateTypes.ActorClaims)
    ensures ctx.None? ==> r == GateTypes.ActorClaims("", "", "", [], [])
    ensures ctx.Some? ==> r.subjectId == UserID(ctx.value) && r.tenantId == TenantID(ctx.value)
                          && r.orgId == OrgID(ctx.value)
    ensures r.roles == [] && r.perms == []
  {
    match ctx
    case None => GateTypes.ActorClaims("", "", "", [], [])
    case Some(c) => GateTypes.ActorClaims(UserID(c), TenantID(c), OrgID(c), [], [])
  }

  // ---------------------------------------------------------------- the package's test case

  lemma PaddedIds()
    ensures TrimSpace("  acme ") == "acme" && TrimSpace(" engineering ") == "engineering"
    ensures TrimSpace(" user-123 ") == "user-123"
    ensures IsBlank(" ") && IsBlank("") && IsBlank("\n\t")
    ensures !IsBlank("  acme ") && !IsBlank(" engineering ") && !IsBlank(" user-123 ")
  {
    TrimSpacePadded("  ", "acme", " ");
    TrimSpacePadded(" ", "engineering", " ");
    TrimSpacePadded(" ", "user-123", " ");
    assert !IsSpace("  acme "[2]);
    assert !IsSpace(" engineering "[1]);
    assert !IsSpace(" user-123 "[1]);
  }

  /** Padded ids are stored trimmed, blank ones are no-ops, and clearing empties each. */
  lemma NoopAndClear()
    ensures var c1 := WithUserID(WithOrgID(WithTenantID(Background, "  acme "), " engineering "), " user-123 ");
            && TenantID(c1) == "acme" && OrgID(c1) == "engineering" && UserID(c1) == "user-123"
            && var c2 := WithUserID(WithOrgID(WithTenantID(c1, " "), ""), "\n\t");
            && TenantID(c2) == "acme" && OrgID(c2) == "engineering" && UserID(c2) == "user-123"
            && var c3 := ClearUserID(ClearOrgID(ClearTenantID(c2)));
            && TenantID(c3) == "" && OrgID(c3) == "" && UserID(c3) == ""
  {
    PaddedIds();
  }
}
