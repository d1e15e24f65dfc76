/** `EcrPolicyUsesDataSource.scan_resource_conf`: an ECR repository policy
    must be a reference to an `aws_iam_policy_document` data source's JSON. */
module EcrPolicyDataSource {
  import opened PolicyConf

  function ScanResourceConf(conf: Conf): (r: CheckResult)
    ensures r == PASSED || r == FAILED
    ensures PolicyKey !in conf ==> r == FAILED
    ensures r == PASSED <==>
      PolicyKey in conf && exists policy: string ::
        UnwrapsTo(conf[PolicyKey], policy) && ReferencesDataSourceAt(policy)
  {
    if PolicyKey !in conf then
      FAILED
    else
      var policy := conf[PolicyKey];
      if policy.List? && |policy.items| == 0 then
        FAILED
      else
        var policy := if policy.List? then policy.items[0] else policy;
        if !policy.Str? then
          FAILED
        else if ReferencesDataSource(policy.s) then
          assert UnwrapsTo(conf[PolicyKey], policy.s);
          PASSED
        else
          FAILED
  }

  /** A list holding nothing fails. */
  lemma EmptyListFails(conf: Conf)
    requires PolicyKey in conf && conf[PolicyKey] == List([])
    ensures ScanResourceConf(conf) == FAILED
  {
  }

  /** Only the first element of a list is looked at: whatever follows it
      never changes the verdict, and a one-element list judges like its
      element. */
  lemma OnlyFirstElementCounts(conf: Conf, first: ConfValue, rest: seq<ConfValue>)
    ensures ScanResourceConf(conf[PolicyKey := List([first] + rest)])
         == ScanResourceConf(conf[PolicyKey := List([first])])
    ensures first.Str? ==>
            ScanResourceConf(conf[PolicyKey := List([first])]) == ScanResourceConf(conf[PolicyKey := first])
  {
  }

  /** Unwrapping goes one level deep only: a list whose first element is
      itself a list fails, whatever that inner list holds. */
  lemma NestedListFails(conf: Conf, inner: seq<ConfValue>, rest: seq<ConfValue>)
    ensures ScanResourceConf(conf[PolicyKey := List([List(inner)] + rest)]) == FAILED
  {
  }
}
