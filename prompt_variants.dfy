/**
 * The four prompt templates of prompt_variants.py. Each renderer is a fixed
 * prefix, the task, and a fixed suffix; the lemmas at the end state what
 * follows from that shape: containment, exact lengths, injectivity, and that
 * the four renderings of one task are pairwise distinct.
 */
module PromptVariants {
  import opened Text

  /** The exemplar pair baked into the few-shot template, one line each. */
  const ExemplarTask := "Task: Explain gravity to a child."
  const ExemplarAnswer := "Answer: Gravity is the force that pulls things down to Earth."

  const FewShotHead := "\nExample 1:\n"
  const FewShotPrefix := FewShotHead + ExemplarTask + "\n" + ExemplarAnswer + "\n\nNow your turn:\nTask: "
  const FewShotSuffix := "\nAnswer:\n"

  const ChainOfThoughtPrefix := "\n"
  const StepByStepCue := "Let's think step by step.\n"
  const ChainOfThoughtSuffix := "\n\n" + StepByStepCue

  const PersonaLine := "\nYou are a world-class expert educator.\n"
  const RoleBasedPrefix := PersonaLine + "\nTask:\n"
  const RoleBasedSuffix := "\n"

  /** `prefix + task + suffix` starts with the prefix, ends with the suffix, holds the task between them. */
  predicate Frames(r: string, prefix: string, task: string, suffix: string) {
    |r| == |prefix| + |task| + |suffix|
    && StartsWith(r, prefix) && EndsWith(r, suffix)
    && r[|prefix|..|r| - |suffix|] == task
  }

  /** Zero-shot: the task itself. */
  function ZeroShot(task: string): (r: string)
    ensures r == task
  {
    task
  }

  /** Few-shot: the gravity exemplar, then the task after "Task: ", then an "Answer:" line. */
  function FewShot(task: string): (r: string)
    ensures Frames(r, FewShotPrefix, task, FewShotSuffix)
    ensures |r| == |task| + 139
  {
    var r := FewShotPrefix + task + FewShotSuffix;
    assert r[..|FewShotPrefix|] == FewShotPrefix;
    assert r[|FewShotPrefix|..|r| - |FewShotSuffix|] == task;
    r
  }

  /** Chain-of-thought: the task on its own line, then the step-by-step cue. */
  function ChainOfThought(task: string): (r: string)
    ensures Frames(r, ChainOfThoughtPrefix, task, ChainOfThoughtSuffix)
    ensures |r| == |task| + 29
  {
    var r := ChainOfThoughtPrefix + task + ChainOfThoughtSuffix;
    assert r[..|ChainOfThoughtPrefix|] == ChainOfThoughtPrefix;
    assert r[|ChainOfThoughtPrefix|..|r| - |ChainOfThoughtSuffix|] == task;
    r
  }

  /** Role-based: the educator persona, then the task under a "Task:" label. */
  function RoleBased(task: string): (r: string)
    ensures Frames(r, RoleBasedPrefix, task, RoleBasedSuffix)
    ensures |r| == |task| + 48
  {
    var r := RoleBasedPrefix + task + RoleBasedSuffix;
    assert r[..|RoleBasedPrefix|] == RoleBasedPrefix;
    assert r[|RoleBasedPrefix|..|r| - |RoleBasedSuffix|] == task;
    r
  }

  /** Every renderer is injective: different tasks give different prompts. */
  lemma RenderersInjective(a: string, b: string)
    requires a != b
    ensures ZeroShot(a) != ZeroShot(b)
    ensures FewShot(a) != FewShot(b)
    ensures ChainOfThought(a) != ChainOfThought(b)
    ensures RoleBased(a) != RoleBased(b)
  {
  }

  /** Whatever the task, each rendering contains it. */
  lemma RenderingsContainTask(task: string)
    ensures Contains(ZeroShot(task), task)
    ensures Contains(FewShot(task), task)
    ensures Contains(ChainOfThought(task), task)
    ensures Contains(RoleBased(task), task)
  {
    ConcatOccurs([], task, []);
    assert [] + task + [] == task;
    ConcatOccurs(FewShotPrefix, task, FewShotSuffix);
    ConcatOccurs(ChainOfThoughtPrefix, task, ChainOfThoughtSuffix);
    ConcatOccurs(RoleBasedPrefix, task, RoleBasedSuffix);
  }

  /** The few-shot prompt always carries the gravity exemplar, whatever the task. */
  lemma {:induction false} FewShotContainsExemplar(task: string)
    ensures Contains(FewShot(task), ExemplarTask)
    ensures Contains(FewShot(task), ExemplarAnswer)
  {
    var withTask := FewShotHead + ExemplarTask;
    var withAnswer := withTask + "\n" + ExemplarAnswer;
    var prefix := withAnswer + "\n\nNow your turn:\nTask: ";
    OccursAtEnd(FewShotHead, ExemplarTask);
    OccursExtend(withTask, ExemplarTask, |FewShotHead|, "\n");
    OccursExtend(withTask + "\n", ExemplarTask, |FewShotHead|, ExemplarAnswer);
    OccursExtend(withAnswer, ExemplarTask, |FewShotHead|, "\n\nNow your turn:\nTask: ");
    OccursExtend(prefix, ExemplarTask, |FewShotHead|, task);
    OccursExtend(prefix + task, ExemplarTask, |FewShotHead|, FewShotSuffix);
    OccursAtEnd(withTask + "\n", ExemplarAnswer);
    OccursExtend(withAnswer, ExemplarAnswer, |withTask| + 1, "\n\nNow your turn:\nTask: ");
    OccursExtend(prefix, ExemplarAnswer, |withTask| + 1, task);
    OccursExtend(prefix + task, ExemplarAnswer, |withTask| + 1, FewShotSuffix);
  }

  /** The chain-of-thought prompt ends with the step-by-step cue; role-based starts with the persona. */
  lemma {:induction false} TemplateEnds(task: string)
    ensures EndsWith(ChainOfThought(task), StepByStepCue)
    ensures StartsWith(RoleBased(task), PersonaLine)
    ensures EndsWith(RoleBased(task), "\n")
  {
  }

  /**
   * For one task the four renderings are pairwise distinct, and all but
   * zero-shot are non-empty: their fixed overheads 0, 139, 29 and 48 differ.
   */
  lemma RenderingsDistinct(task: string)
    ensures ZeroShot(task) != FewShot(task) && ZeroShot(task) != ChainOfThought(task)
    ensures ZeroShot(task) != RoleBased(task) && FewShot(task) != ChainOfThought(task)
    ensures FewShot(task) != RoleBased(task) && ChainOfThought(task) != RoleBased(task)
    ensures FewShot(task) != [] && ChainOfThought(task) != [] && RoleBased(task) != []
  {
  }

  /** The display order of the four variants. */
  const VariantOrder := ["Zero-shot", "Few-shot", "Chain-of-thought", "Role-based"]

  /**
   * The ordered name-to-prompt table an experiment renders from one task:
   * four distinct names in the fixed display order, four pairwise distinct
   * prompts, each holding the task.
   */
  function RenderAll(task: string): (r: seq<(string, string)>)
    ensures |r| == |VariantOrder| == 4
    ensures forall i | 0 <= i < |r| :: r[i].0 == VariantOrder[i] && Contains(r[i].1, task)
    ensures r[0].1 == ZeroShot(task) && r[1].1 == FewShot(task)
    ensures r[2].1 == ChainOfThought(task) && r[3].1 == RoleBased(task)
    ensures forall i, j | 0 <= i < j < |r| :: r[i].0 != r[j].0 && r[i].1 != r[j].1
  {
    RenderingsContainTask(task);
    RenderingsDistinct(task);
    [ ("Zero-shot", ZeroShot(task)),
      ("Few-shot", FewShot(task)),
      ("Chain-of-thought", ChainOfThought(task)),
      ("Role-based", RoleBased(task)) ]
  }
}
