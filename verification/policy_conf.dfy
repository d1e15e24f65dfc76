/** What the two checkov policy checks share: the parsed Terraform
    attribute values they inspect, checkov's result values, and the
    reference pattern a policy must follow. */
module PolicyConf {
  import opened Text

  /** An attribute value as the checks see it: a string, a list (Terraform
      often wraps values in one), or anything else (an inline object, a
      number, ...). */
  datatype ConfValue = Str(s: string) | List(items: seq<ConfValue>) | Other

  /** A resource's configuration: attribute name to value. */
  type Conf = map<string, ConfValue>

  /** checkov's `CheckResult`. */
  datatype CheckResult = PASSED | FAILED | SKIPPED | UNKNOWN

  const PolicyKey := "policy"
  const DataSourcePrefix := "data.aws_iam_policy_document."
  const JsonSuffix := ".json"

  /** The policy string names a `aws_iam_policy_document` data source and
      its `.json` attribute, as the checks test it: the prefix occurs
      somewhere and the string ends in the suffix. */
  predicate ReferencesDataSource(policy: string) {
    Contains(policy, DataSourcePrefix) && EndsWith(policy, JsonSuffix)
  }

  /** The same condition stated by positions, independently of the scan. */
  ghost predicate ReferencesDataSourceAt(policy: string) {
    && (exists i: nat :: i <= |policy| && OccursAt(policy, DataSourcePrefix, i))
    && |JsonSuffix| <= |policy|
    && policy[|policy| - |JsonSuffix|..] == JsonSuffix
  }

  /** The policy value after one level of list unwrapping is this string. */
  ghost predicate UnwrapsTo(v: ConfValue, policy: string) {
    || v == Str(policy)
    || (v.List? && |v.items| > 0 && v.items[0] == Str(policy))
  }
}
