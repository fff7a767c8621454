/**
 * The six-field organization settings record of src/App.jsx, its default
 * literal, and the per-field edits the settings form makes to it.
 */
module OrgSettings {
  import opened EcmaParseInt

  datatype Settings = Settings(
    orgName: string,
    brandColor: string,
    learningPolicy: string,
    concurrentUsers: int,
    jwtSSO: bool,
    strongPasswords: bool)

  /**
   * The literal the state starts from, and which Reset restores: its
   * policy is the first option of the select, and its user limit meets the
   * input's minimum of 10.
   */
  function Defaults(): (d: Settings)
    ensures d.learningPolicy == PolicyText(SelfPaced)
    ensures d.concurrentUsers >= 10
  {
    Settings("", "#3b6dff", "Self-paced with soft deadlines", 5000, true, true)
  }

  /** The three options of the learning-policy select. */
  datatype Policy = SelfPaced | StrictDeadlines | ComplianceFirst

  function PolicyText(p: Policy): string {
    match p
    case SelfPaced => "Self-paced with soft deadlines"
    case StrictDeadlines => "Strict deadlines with manager approval"
    case ComplianceFirst => "Compliance-first (mandatory for all users)"
  }

  /** The learning policy is the text of one of the select's options. */
  predicate PolicyListed(s: Settings) {
    exists p: Policy :: PolicyText(p) == s.learningPolicy
  }

  datatype Field = OrgName | BrandColor | LearningPolicy | ConcurrentUsers | JwtSSO | StrongPasswords

  /** A field's content, whatever its type. */
  datatype FieldValue = Text(text: string) | Count(count: int) | Flag(flag: bool)

  function Get(s: Settings, f: Field): FieldValue {
    match f
    case OrgName => Text(s.orgName)
    case BrandColor => Text(s.brandColor)
    case LearningPolicy => Text(s.learningPolicy)
    case ConcurrentUsers => Count(s.concurrentUsers)
    case JwtSSO => Flag(s.jwtSSO)
    case StrongPasswords => Flag(s.strongPasswords)
  }

  /** Two records are equal exactly when every field agrees. */
  lemma SettingsExtensionality(s: Settings, t: Settings)
    requires forall f: Field :: Get(s, f) == Get(t, f)
    ensures s == t
  {
    assert Get(s, OrgName) == Get(t, OrgName);
    assert Get(s, BrandColor) == Get(t, BrandColor);
    assert Get(s, LearningPolicy) == Get(t, LearningPolicy);
    assert Get(s, ConcurrentUsers) == Get(t, ConcurrentUsers);
    assert Get(s, JwtSSO) == Get(t, JwtSSO);
    assert Get(s, StrongPasswords) == Get(t, StrongPasswords);
  }

  /**
   * One change event of a form control: the organization-name input, either
   * of the two brand-colour inputs, the policy select, the user-limit number
   * input (its raw text), and the two checkboxes.
   */
  datatype Edit =
    | SetOrgName(name: string)
    | SetBrandColor(color: string)
    | SelectPolicy(policy: Policy)
    | SetUserLimit(raw: string)
    | SetJwtSSO(checked: bool)
    | SetStrongPasswords(checked: bool)

  function Target(e: Edit): Field {
    match e
    case SetOrgName(_) => OrgName
    case SetBrandColor(_) => BrandColor
    case SelectPolicy(_) => LearningPolicy
    case SetUserLimit(_) => ConcurrentUsers
    case SetJwtSSO(_) => JwtSSO
    case SetStrongPasswords(_) => StrongPasswords
  }

  /** What the event stores: the control's value, the user limit coerced by `parseInt(v) || 0`. */
  function NewValue(e: Edit): FieldValue {
    match e
    case SetOrgName(v) => Text(v)
    case SetBrandColor(v) => Text(v)
    case SelectPolicy(p) => Text(PolicyText(p))
    case SetUserLimit(v) => Count(CoerceUserLimit(v))
    case SetJwtSSO(b) => Flag(b)
    case SetStrongPasswords(b) => Flag(b)
  }

  /** `r` is `s` with field `f` holding `v` and the other five fields as in `s`. */
  predicate ReplacesOnly(s: Settings, r: Settings, f: Field, v: FieldValue) {
    Get(r, f) == v && forall g: Field :: g != f ==> Get(r, g) == Get(s, g)
  }

  /** `{ ...settings, field: value }`: the edited field takes the new value, the other five keep theirs. */
  function ApplyEdit(s: Settings, e: Edit): (r: Settings)
    ensures ReplacesOnly(s, r, Target(e), NewValue(e))
  {
    match e
    case SetOrgName(v) => s.(orgName := v)
    case SetBrandColor(v) => s.(brandColor := v)
    case SelectPolicy(p) => s.(learningPolicy := PolicyText(p))
    case SetUserLimit(v) => s.(concurrentUsers := CoerceUserLimit(v))
    case SetJwtSSO(b) => s.(jwtSSO := b)
    case SetStrongPasswords(b) => s.(strongPasswords := b)
  }

  /** Repeating an edit changes nothing more. */
  lemma ApplyEditIdempotent(s: Settings, e: Edit)
    ensures ApplyEdit(ApplyEdit(s, e), e) == ApplyEdit(s, e)
  {
    var once := ApplyEdit(s, e);
    forall f: Field ensures Get(ApplyEdit(once, e), f) == Get(once, f) {
    }
    SettingsExtensionality(ApplyEdit(once, e), once);
  }

  /** Edits of two different fields can be made in either order. */
  lemma ApplyEditsCommute(s: Settings, e1: Edit, e2: Edit)
    requires Target(e1) != Target(e2)
    ensures ApplyEdit(ApplyEdit(s, e1), e2) == ApplyEdit(ApplyEdit(s, e2), e1)
  {
    var a := ApplyEdit(ApplyEdit(s, e1), e2);
    var b := ApplyEdit(ApplyEdit(s, e2), e1);
    forall f: Field ensures Get(a, f) == Get(b, f) {
    }
    SettingsExtensionality(a, b);
  }

  /** A later edit of the same field overrides an earlier one. */
  lemma ApplyEditOverrides(s: Settings, e1: Edit, e2: Edit)
    requires Target(e1) == Target(e2)
    ensures ApplyEdit(ApplyEdit(s, e1), e2) == ApplyEdit(s, e2)
  {
    var a := ApplyEdit(ApplyEdit(s, e1), e2);
    var b := ApplyEdit(s, e2);
    forall f: Field ensures Get(a, f) == Get(b, f) {
    }
    SettingsExtensionality(a, b);
  }

  /** The defaults, and any record the form's edits produce from a listed one, keep a listed policy. */
  lemma PolicyListedPreserved(s: Settings, e: Edit)
    ensures PolicyListed(Defaults())
    ensures PolicyListed(s) ==> PolicyListed(ApplyEdit(s, e))
  {
    assert PolicyText(SelfPaced) == Defaults().learningPolicy;
    if PolicyListed(s) {
      var p: Policy :| PolicyText(p) == s.learningPolicy;
      match e
      case SelectPolicy(q) =>
        assert PolicyText(q) == ApplyEdit(s, e).learningPolicy;
      case _ =>
        assert PolicyText(p) == ApplyEdit(s, e).learningPolicy;
    }
  }
}
