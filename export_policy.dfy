/**
 * The deterministic part of the policy exporter: splitting a policy ARN
 * into its components, building the CloudFormation template from an
 * exported policy configuration, and choosing the template's policy name.
 */
module ExportPolicy {
  import opened Wrappers
  import opened JsonValues
  import opened Common

  /** Python's `s.split(sep)` for a one-character separator: never empty, "" gives [""]. */
  function Split(s: string, sep: char): (parts: seq<string>)
    ensures |parts| >= 1
    decreases |s|
  {
    if s == [] then [""]
    else
      var rest := Split(s[1..], sep);
      if s[0] == sep then [""] + rest
      else [[s[0]] + rest[0]] + rest[1..]
  }

  /** `sep.join(parts)`: the inverse of `Split`. */
  function Join(parts: seq<string>, sep: char): string
    decreases |parts|
  {
    if parts == [] then ""
    else if |parts| == 1 then parts[0]
    else parts[0] + [sep] + Join(parts[1..], sep)
  }

  /** No separator inside any piece. */
  predicate Pieces(parts: seq<string>, sep: char) {
    forall i :: 0 <= i < |parts| ==> sep !in parts[i]
  }

  /** The pieces never contain the separator, and there is one more piece than separators. */
  lemma {:induction false} SplitPieces(s: string, sep: char)
    ensures Pieces(Split(s, sep), sep)
    ensures |Split(s, sep)| == multiset(s)[sep] + 1
    decreases |s|
  {
    if s != [] {
      SplitPieces(s[1..], sep);
      assert s == [s[0]] + s[1..];
      var rest := Split(s[1..], sep);
      if s[0] != sep {
        var parts := [[s[0]] + rest[0]] + rest[1..];
        assert Split(s, sep) == parts;
        forall i | 0 <= i < |parts| ensures sep !in parts[i] {
          if i > 0 { assert parts[i] == rest[i]; }
        }
      }
    }
  }

  /** Joining the pieces gives back the string. */
  lemma {:induction false} JoinSplit(s: string, sep: char)
    ensures Join(Split(s, sep), sep) == s
    decreases |s|
  {
    if s != [] {
      JoinSplit(s[1..], sep);
      var rest := Split(s[1..], sep);
      if s[0] == sep {
        assert ([""] + rest)[1..] == rest;
      } else {
        var parts := [[s[0]] + rest[0]] + rest[1..];
        assert parts[1..] == rest[1..];
        if |rest| > 1 {
          calc {
            Join(parts, sep);
            ([s[0]] + rest[0]) + [sep] + Join(rest[1..], sep);
            { AppendAssoc3(s[0], rest[0], sep, Join(rest[1..], sep)); }
            [s[0]] + (rest[0] + [sep] + Join(rest[1..], sep));
            [s[0]] + Join(rest, sep);
          }
        }
        assert [s[0]] + s[1..] == s;
      }
    }
  }

  /** `([c] + x) + [sep] + y == [c] + (x + [sep] + y)`. */
  lemma AppendAssoc3(c: char, x: string, sep: char, y: string)
    ensures ([c] + x) + [sep] + y == [c] + (x + [sep] + y)
  {
  }

  /** A piece without the separator splits to itself. */
  lemma {:induction false} SplitPiece(s: string, sep: char)
    requires sep !in s
    ensures Split(s, sep) == [s]
    decreases |s|
  {
    if s != [] {
      assert sep !in s[1..];
      SplitPiece(s[1..], sep);
      assert [s[0]] + s[1..] == s;
    }
  }

  /** Splitting `a + sep + b` gives `a` followed by the pieces of `b`. */
  lemma {:induction false} SplitAtFirst(a: string, b: string, sep: char)
    requires sep !in a
    ensures Split(a + [sep] + b, sep) == [a] + Split(b, sep)
    decreases |a|
  {
    var s := a + [sep] + b;
    if a == [] {
      assert s[1..] == b;
    } else {
      assert s[0] == a[0] && s[1..] == a[1..] + [sep] + b;
      assert sep !in a[1..];
      SplitAtFirst(a[1..], b, sep);
      var rest := [a[1..]] + Split(b, sep);
      assert Split(s[1..], sep) == rest;
      assert rest[0] == a[1..] && rest[1..] == Split(b, sep);
      assert [a[0]] + a[1..] == a;
    }
  }

  /** Splitting undoes joining pieces that do not contain the separator. */
  lemma {:induction false} SplitJoin(parts: seq<string>, sep: char)
    requires |parts| >= 1
    requires forall i :: 0 <= i < |parts| ==> sep !in parts[i]
    ensures Split(Join(parts, sep), sep) == parts
    decreases |parts|
  {
    if |parts| == 1 {
      SplitPiece(parts[0], sep);
    } else {
      SplitJoin(parts[1..], sep);
      SplitAtFirst(parts[0], Join(parts[1..], sep), sep);
    }
  }

  /** The fields `parse_policy_arn` returns. */
  datatype PolicyArn = PolicyArn(region: string, accountId: string, policyId: string, version: string)

  /** The ValueError `parse_policy_arn` raises. */
  datatype ArnError = InvalidArnFormat(arn: string) | InvalidPolicyArnFormat(arn: string) {
    function Message(): string {
      match this
      case InvalidArnFormat(a) => "Invalid ARN format: " + a
      case InvalidPolicyArnFormat(a) => "Invalid policy ARN format: " + a
    }
  }

  /**
   * `parse_policy_arn`: fields 4 and 5 of the colon split, then components 2
   * and 3 of the sixth field's slash split. Fewer than five colons, or fewer
   * than two slashes in the sixth field, is an error; the resource type and
   * any further fields or components are not checked.
   */
  function ParsePolicyArn(arn: string): (r: Result<PolicyArn, ArnError>)
    ensures r.Err? ==> r.error.arn == arn
    ensures r.Ok? ==>
      && ':' !in r.value.region && ':' !in r.value.accountId
      && '/' !in r.value.policyId && '/' !in r.value.version
  {
    SplitPieces(arn, ':');
    var parts := Split(arn, ':');
    if |parts| < 6 then Err(InvalidArnFormat(arn))
    else
      SplitPieces(parts[5], '/');
      var resourceParts := Split(parts[5], '/');
      if |resourceParts| < 3 then Err(InvalidPolicyArnFormat(arn))
      else Ok(PolicyArn(parts[3], parts[4], resourceParts[1], resourceParts[2]))
  }

  /**
   * The two errors in terms of separator counts: fewer than five colons, or
   * fewer than two slashes in the sixth colon-separated field.
   */
  lemma ArnErrorsByCount(arn: string)
    ensures ParsePolicyArn(arn) == Err(InvalidArnFormat(arn)) <==> multiset(arn)[':'] < 5
    ensures ParsePolicyArn(arn) == Err(InvalidPolicyArnFormat(arn)) <==>
      multiset(arn)[':'] >= 5 && multiset(Split(arn, ':')[5])['/'] < 2
  {
    SplitPieces(arn, ':');
    if multiset(arn)[':'] >= 5 {
      SplitPieces(Split(arn, ':')[5], '/');
    }
  }

  /**
   * A parsed ARN sits in the string where the format says: the colon fields
   * join back to the ARN, fields 4 and 5 are region and account, and the
   * sixth field's slash components 2 and 3 are policy id and version.
   */
  lemma ParsedArnInPlace(arn: string)
    requires ParsePolicyArn(arn).Ok?
    ensures var p := ParsePolicyArn(arn).value;
      var fields := Split(arn, ':');
      && |fields| >= 6 && Join(fields, ':') == arn
      && fields[3] == p.region && fields[4] == p.accountId
      && var components := Split(fields[5], '/');
      && |components| >= 3 && Join(components, '/') == fields[5]
      && components[1] == p.policyId && components[2] == p.version
  {
    JoinSplit(arn, ':');
    JoinSplit(Split(arn, ':')[5], '/');
  }

  /**
   * An ARN joined from at least six separator-free fields, whose sixth field
   * joins at least three slash-free components, parses back to fields 4 and 5
   * and components 2 and 3, whatever the other fields and components are.
   */
  lemma ParseAssembledArn(fields: seq<string>, components: seq<string>)
    requires |fields| >= 6 && |components| >= 3
    requires Pieces(fields, ':') && Pieces(components, '/')
    requires fields[5] == Join(components, '/')
    ensures ParsePolicyArn(Join(fields, ':'))
      == Ok(PolicyArn(fields[3], fields[4], components[1], components[2]))
  {
    SplitJoin(fields, ':');
    SplitJoin(components, '/');
  }

  /** Joining pieces free of `c` with a separator other than `c` gives a string free of `c`. */
  lemma {:induction false} JoinAvoids(parts: seq<string>, sep: char, c: char)
    requires sep != c && Pieces(parts, c)
    ensures c !in Join(parts, sep)
    decreases |parts|
  {
    if |parts| > 1 {
      JoinAvoids(parts[1..], sep, c);
    }
  }

  /**
   * The usage example `arn:aws:bedrock:us-east-1:123456789012:automated-reasoning-policy/abc123/1`,
   * written as its colon-joined fields: policy `abc123`, version `1`, in us-east-1.
   */
  lemma ExampleArn()
    ensures
      var resource := Join(["automated-reasoning-policy", "abc123", "1"], '/');
      ParsePolicyArn(Join(["arn", "aws", "bedrock", "us-east-1", "123456789012", resource], ':'))
        == Ok(PolicyArn("us-east-1", "123456789012", "abc123", "1"))
  {
    var components := ["automated-reasoning-policy", "abc123", "1"];
    var fields := ["arn", "aws", "bedrock", "us-east-1", "123456789012", Join(components, '/')];
    ExamplePieces(components, fields);
    ParseAssembledArn(fields, components);
  }

  /** The usage example's fields and components hold no separator. */
  lemma ExamplePieces(components: seq<string>, fields: seq<string>)
    requires components == ["automated-reasoning-policy", "abc123", "1"]
    requires fields == ["arn", "aws", "bedrock", "us-east-1", "123456789012", Join(components, '/')]
    ensures Pieces(components, '/') && Pieces(fields, ':')
  {
    ExampleComponents(components);
    JoinAvoids(components, '/', ':');
    ExampleFields(fields);
  }

  /** The usage example's resource components hold neither separator. */
  lemma ExampleComponents(components: seq<string>)
    requires components == ["automated-reasoning-policy", "abc123", "1"]
    ensures Pieces(components, '/') && Pieces(components, ':')
  {
  }

  /** The usage example's first five fields hold no colon. */
  lemma ExampleFields(fields: seq<string>)
    requires |fields| == 6 && ':' !in fields[5]
    requires fields[..5] == ["arn", "aws", "bedrock", "us-east-1", "123456789012"]
    ensures Pieces(fields, ':')
  {
    forall i | 0 <= i < 5 ensures ':' !in fields[i] {
      assert fields[i] == fields[..5][i];
    }
  }

  /** A `{"Key": ..., "Value": ...}` entry of the template's `Tags`. */
  datatype Tag = Tag(key: Json, value: Json)

  /** The `Properties` of the policy resource; absent optional keys are None. */
  datatype Properties = Properties(
    name: string,
    policyDefinition: Option<Json>,
    description: Option<Json>,
    tags: Option<seq<Tag>>)

  /** The `{"Description": ..., "Value": {"Fn::GetAtt": [resource, attribute]}}` of one output. */
  datatype TemplateOutput = TemplateOutput(description: string, getAttResource: string, getAttAttribute: string)

  /** The CloudFormation template dictionary. */
  datatype Template = Template(
    formatVersion: string,
    description: string,
    resourceName: string,
    resourceType: string,
    properties: Properties,
    policyIdOutput: TemplateOutput,
    policyArnOutput: TemplateOutput)

  const FormatVersion := "2010-09-09"
  const ResourceName := "AutomatedReasoningPolicy"
  const ResourceType := "AWS::Bedrock::AutomatedReasoningPolicy"
  const DescriptionPrefix := "CloudFormation template for Automated Reasoning Policy: "
  const PolicyIdDescription := "The ID of the created Automated Reasoning Policy"
  const PolicyArnDescription := "The ARN of the created Automated Reasoning Policy"

  /** The `{"key": k, "value": v}` to `{"Key": k, "Value": v}` conversion; a missing key raises. */
  function ConvertTag(tag: Json): Result<Tag, ShapeError> {
    if tag.Obj? && HasKey(tag.fields, "key") && HasKey(tag.fields, "value") then
      Ok(Tag(Get(tag.fields, "key"), Get(tag.fields, "value")))
    else Err(Malformed)
  }

  /** The list comprehension over the configured tags, in order. */
  function ConvertTags(tags: seq<Json>): (r: Result<seq<Tag>, ShapeError>)
    ensures r.Ok? <==> forall i :: 0 <= i < |tags| ==> ConvertTag(tags[i]).Ok?
    ensures r.Ok? ==>
      && |r.value| == |tags|
      && forall i :: 0 <= i < |tags| ==> r.value[i] == ConvertTag(tags[i]).value
    decreases |tags|
  {
    if tags == [] then Ok([])
    else
      match ConvertTag(tags[0])
      case Err(e) => Err(e)
      case Ok(t) =>
        match ConvertTags(tags[1..])
        case Err(e) => Err(e)
        case Ok(ts) =>
          assert forall i :: 1 <= i < |tags| ==> tags[i] == tags[1..][i - 1];
          Ok([t] + ts)
  }

  /**
   * `Tags` when `include_tags` holds and the config has a truthy `tags`
   * value (which must then iterate to key/value objects); otherwise None.
   */
  function TagsProperty(config: Fields, includeTags: bool): Result<Option<seq<Tag>>, ShapeError> {
    if includeTags && HasKey(config, "tags") && Truthy(Get(config, "tags")) then
      match Elements(Get(config, "tags"))
      case None => Err(Malformed)
      case Some(tags) =>
        match ConvertTags(tags)
        case Err(e) => Err(e)
        case Ok(converted) => Ok(Some(converted))
    else Ok(None)
  }

  /** `generate_cloudformation_template`; it raises only on tags it cannot convert. */
  function GenerateTemplate(config: Fields, policyName: string, includeTags: bool): (r: Result<Template, ShapeError>)
    ensures r.Ok? <==> TagsProperty(config, includeTags).Ok?
    ensures r.Ok? ==>
      var p := r.value.properties;
      && p.name == policyName
      && (p.policyDefinition.Some? <==> Truthy(GetOr(config, "policyDefinition", Obj([]))))
      && (p.policyDefinition.Some? ==> p.policyDefinition.value == Get(config, "policyDefinition"))
      && (p.description.Some? <==> HasKey(config, "description"))
      && (p.description.Some? ==> p.description.value == Get(config, "description"))
      && (p.tags.Some? <==> includeTags && HasKey(config, "tags") && Truthy(Get(config, "tags")))
  {
    var definition := GetOr(config, "policyDefinition", Obj([]));
    match TagsProperty(config, includeTags)
    case Err(e) => Err(e)
    case Ok(tags) =>
      var properties := Properties(
        policyName,
        if Truthy(definition) then Some(definition) else None,
        if HasKey(config, "description") then Some(Get(config, "description")) else None,
        tags);
      Ok(Template(
        FormatVersion,
        DescriptionPrefix + policyName,
        ResourceName,
        ResourceType,
        properties,
        TemplateOutput(PolicyIdDescription, ResourceName, "PolicyId"),
        TemplateOutput(PolicyArnDescription, ResourceName, "PolicyArn")))
  }

  /** The fixed parts of every template, whatever the configuration. */
  lemma TemplateConstants(config: Fields, policyName: string, includeTags: bool)
    requires GenerateTemplate(config, policyName, includeTags).Ok?
    ensures var t := GenerateTemplate(config, policyName, includeTags).value;
      && t.formatVersion == FormatVersion
      && t.resourceType == ResourceType
      && t.description == DescriptionPrefix + policyName
      && t.policyIdOutput.getAttResource == t.resourceName == t.policyArnOutput.getAttResource
      && t.policyIdOutput.getAttAttribute == "PolicyId" && t.policyArnOutput.getAttAttribute == "PolicyArn"
  {
  }

  /** Configured tags keep their number, order, keys and values. */
  lemma TagsPreserved(config: Fields, policyName: string, tags: seq<Json>)
    requires HasKey(config, "tags") && Get(config, "tags") == Arr(tags) && tags != []
    requires GenerateTemplate(config, policyName, true).Ok?
    ensures var converted := GenerateTemplate(config, policyName, true).value.properties.tags;
      && converted.Some? && |converted.value| == |tags|
      && forall i :: 0 <= i < |tags| ==>
        tags[i].Obj? && converted.value[i] == Tag(Get(tags[i].fields, "key"), Get(tags[i].fields, "value"))
  {
  }

  /** Without `include_tags` the template never has tags and never raises. */
  lemma NoTagsNeverRaises(config: Fields, policyName: string)
    ensures GenerateTemplate(config, policyName, false).Ok?
    ensures GenerateTemplate(config, policyName, false).value.properties.tags.None?
  {
  }

  /** `args.policy_name or policy_name or f"AutomatedReasoningPolicy{policy_id}"`. */
  function CfnPolicyName(argName: Option<string>, selectedName: Option<string>, policyId: string): (name: string)
    ensures name != ""
    ensures Given(argName) ==> name == argName.value
    ensures !Given(argName) && Given(selectedName) ==> name == selectedName.value
    ensures !Given(argName) && !Given(selectedName) ==> name == ResourceName + policyId
  {
    if Given(argName) then argName.value
    else if Given(selectedName) then selectedName.value
    else ResourceName + policyId
  }
}
