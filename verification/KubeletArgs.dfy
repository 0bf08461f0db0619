/** The provider's own kubelet argument through launching and defaulting. */
module KubeletArgs {
  import opened Text
  import Dedup
  import Defaults
  import MachineLaunch

  lemma RegisterTaintHasKey()
    ensures SplitPair(MachineLaunch.REGISTER_TAINT_KEY + "=" + MachineLaunch.REGISTER_TAINT, '=') ==
            Some((MachineLaunch.REGISTER_TAINT_KEY, MachineLaunch.REGISTER_TAINT))
  {
    var key := MachineLaunch.REGISTER_TAINT_KEY;
    assert Lacks(key, '=');
    SplitPairOf(key, MachineLaunch.REGISTER_TAINT, '=');
  }

  /** Whatever kubelet annotations the user sets, even one for the same argument, the arguments a launch collects
      still end, after the three defaulting passes, with the provider's taint, and no other line sets that key. */
  lemma RegisterTaintSurvives(annotations: map<string, string>, args: seq<string>, spec: Defaults.CXMSpec)
    requires args != [] && args[|args| - 1] == MachineLaunch.REGISTER_TAINT_KEY + "=" + MachineLaunch.REGISTER_TAINT
    requires MachineLaunch.UserArgs(annotations, args[..|args| - 1]) && spec.kubeletArgs == args
    ensures var r := Defaults.Defaulted(Defaults.Defaulted(Defaults.Defaulted(spec))).kubeletArgs;
            && r != [] && r[|r| - 1] == MachineLaunch.REGISTER_TAINT_KEY + "=" + MachineLaunch.REGISTER_TAINT
            && forall k | 0 <= k < |r| - 1 ::
               Dedup.HasKey(r[k]) && Dedup.KeyOf(r[k]) != MachineLaunch.REGISTER_TAINT_KEY
  {
    RegisterTaintHasKey();
    Dedup.FinalLineSurvives(args);
    Dedup.LastsLaws(args);
  }
}
