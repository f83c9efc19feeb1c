/** The runtime configuration shape of the packaged core
    (packages/core/src/config/schema.ts). Its label and cleanup-rule schemas
    are those of `ConfigSchema`; the `Config` it works with is a TypeScript
    interface, checked by shape only: no minimum label count, no positivity
    on `retentionDays`, and no rule lists beyond `cleanupRules`. */
module RuntimeConfig {
  import opened ConfigSchema

  /** `{ label: string, retentionDays: number }` */
  predicate IsCleanupRuleShape(v: Value) {
    v.Obj? && Field(v, "label").Str? && Field(v, "retentionDays").Num?
  }

  /** The `Config` interface: `model` is any runtime object, `gmail` holds the
      two credentials, `labels` is a list of labels, and `cleanupRules` and
      `classificationPrompt` are optional. */
  predicate IsRuntimeConfig(v: Value) {
    && v.Obj?
    && IsGmailCredentials(Field(v, "gmail"))
    && Field(v, "labels").Arr? && AllLabels(Field(v, "labels").items)
    && (Field(v, "cleanupRules").Undefined?
        || (Field(v, "cleanupRules").Arr?
            && forall i :: 0 <= i < |Field(v, "cleanupRules").items| ==> IsCleanupRuleShape(Field(v, "cleanupRules").items[i])))
    && OptionalString(Field(v, "classificationPrompt"))
  }

  /** Every configuration the full schema accepts has the runtime shape. */
  lemma SchemaConfigHasRuntimeShape(v: Value)
    requires IsConfig(v)
    ensures IsRuntimeConfig(v)
  {
    var cr := Field(v, "cleanupRules");
    if cr.Arr? {
      forall i | 0 <= i < |cr.items| ensures IsCleanupRuleShape(cr.items[i]) {
        assert IsCleanupRule(cr.items[i]);
      }
    }
  }

  function Credentials(): Value {
    Obj(map["clientId" := Str("id"), "clientSecret" := Str("secret")])
  }

  /** The converse fails: a runtime configuration without labels, or with a
      cleanup rule that keeps zero days, is refused by the full schema. */
  lemma RuntimeShapeIsWeaker()
    ensures IsRuntimeConfig(Obj(map["gmail" := Credentials(), "labels" := Arr([])]))
    ensures !IsConfig(Obj(map["gmail" := Credentials(), "labels" := Arr([])]))
    ensures !IsCleanupRule(Obj(map["label" := Str("Security"), "retentionDays" := Num(0.0)]))
    ensures IsCleanupRuleShape(Obj(map["label" := Str("Security"), "retentionDays" := Num(0.0)]))
  {
    var v := Obj(map["gmail" := Credentials(), "labels" := Arr([])]);
    assert Field(v, "labels") == Arr([]);
    assert Field(v, "gmail") == Credentials();
    assert Field(v, "cleanupRules") == Undefined;
    assert Field(v, "classificationPrompt") == Undefined;
    var r := Obj(map["label" := Str("Security"), "retentionDays" := Num(0.0)]);
    assert Field(r, "retentionDays") == Num(0.0);
    assert Field(r, "label") == Str("Security");
  }
}
