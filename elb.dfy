// service/elb/service.go: application and network load balancers that no
// target group points at. Both Describe calls are abstract answers.
module Elb {
  import opened Wrappers
  import opened Reads

  const TypeApplication := "application"
  const TypeNetwork := "network"

  datatype LoadBalancer = LoadBalancer(loadBalancerArn: Option<string>, lbType: string)
  datatype TargetGroup = TargetGroup(loadBalancerArns: seq<string>)

  /** The ARNs of one target group, as a set. */
  function ArnSet(arns: seq<string>): (r: set<string>)
    ensures forall arn :: arn in r <==> arn in arns
  {
    if arns == [] then {} else ArnSet(arns[..|arns| - 1]) + {arns[|arns| - 1]}
  }

  /** The ARNs some target group refers to. */
  function UsedArns(groups: seq<TargetGroup>): set<string>
  {
    if groups == [] then {}
    else UsedArns(groups[..|groups| - 1]) + ArnSet(groups[|groups| - 1].loadBalancerArns)
  }

  /** The used set is exactly the union of every target group's ARNs. */
  lemma {:induction false} UsedArnsUnion(groups: seq<TargetGroup>, arn: string)
    ensures arn in UsedArns(groups) <==> exists i :: 0 <= i < |groups| && arn in groups[i].loadBalancerArns
  {
    if groups != [] {
      var init := groups[..|groups| - 1];
      UsedArnsUnion(init, arn);
      if exists i :: 0 <= i < |groups| && arn in groups[i].loadBalancerArns {
        var i :| 0 <= i < |groups| && arn in groups[i].loadBalancerArns;
        if i < |init| {
          assert init[i] == groups[i];
        }
      }
      if exists i :: 0 <= i < |init| && arn in init[i].loadBalancerArns {
        var i :| 0 <= i < |init| && arn in init[i].loadBalancerArns;
        assert groups[i] == init[i];
      }
    }
  }

  /** An application or network load balancer whose ARN no target group uses. */
  predicate IsOrphaned(lb: LoadBalancer, used: set<string>)
  {
    (lb.lbType == TypeApplication || lb.lbType == TypeNetwork) && lb.loadBalancerArn.GetOr("") !in used
  }

  function Orphaned(used: set<string>): LoadBalancer -> bool
  {
    lb => IsOrphaned(lb, used)
  }

  /** The nested loop that fills the used-ARN set. */
  method CollectUsedArns(groups: seq<TargetGroup>) returns (used: set<string>)
    ensures used == UsedArns(groups)
  {
    used := {};
    for i := 0 to |groups|
      invariant used == UsedArns(groups[..i])
    {
      assert groups[..i + 1][..i] == groups[..i];
      ghost var before := used;
      var arns := groups[i].loadBalancerArns;
      for j := 0 to |arns|
        invariant used == before + ArnSet(arns[..j])
      {
        assert arns[..j + 1][..j] == arns[..j];
        used := used + {arns[j]};
      }
      assert arns[..|arns|] == arns;
    }
    assert groups[..|groups|] == groups;
  }

  /**
   * GetUnusedLoadBalancers: either call's error is returned; otherwise the
   * orphaned load balancers, in their listed order.
   */
  method UnusedLoadBalancers(lbOutput: Outcome<seq<LoadBalancer>>, tgOutput: Outcome<seq<TargetGroup>>)
    returns (r: Outcome<seq<LoadBalancer>>)
    ensures lbOutput.Failure? ==> r == Failure(lbOutput.error)
    ensures lbOutput.Success? && tgOutput.Failure? ==> r == Failure(tgOutput.error)
    ensures lbOutput.Success? && tgOutput.Success? ==>
      r == Success(Filter(lbOutput.value, Orphaned(UsedArns(tgOutput.value))))
  {
    if lbOutput.Failure? {
      return Failure(lbOutput.error);
    }
    if tgOutput.Failure? {
      return Failure(tgOutput.error);
    }
    var used := CollectUsedArns(tgOutput.value);
    var orphanedLbs := KeepWhere(lbOutput.value, Orphaned(used));
    return Success(orphanedLbs);
  }

  /**
   * A load balancer is returned exactly when it is listed, is an application
   * or network load balancer, and no target group refers to its ARN.
   */
  lemma OrphanedExactly(lbs: seq<LoadBalancer>, groups: seq<TargetGroup>, lb: LoadBalancer)
    ensures lb in Filter(lbs, Orphaned(UsedArns(groups))) <==>
      lb in lbs && (lb.lbType == TypeApplication || lb.lbType == TypeNetwork)
      && forall i :: 0 <= i < |groups| ==> lb.loadBalancerArn.GetOr("") !in groups[i].loadBalancerArns
  {
    FilterMembers(lbs, Orphaned(UsedArns(groups)), lb);
    UsedArnsUnion(groups, lb.loadBalancerArn.GetOr(""));
  }
}
