/** The prompt builder: a fixed template into which the code snippet and the
    task name are inserted verbatim. The task is free text; the list of
    allowed tasks is only part of the wording. */
module Prompts {
  import opened Wrappers

  const Header := "You are a code analysis expert. Review the following code snippet and perform the specified task with clarity and precision.\n"
  /** The dashed separator line (28 dashes). */
  const Separator := "----------------------------\n"
  const CodeLabel := "CODE:\n"
  /** What closes the code: the end of its last line, then a separator. */
  const CodeFence := "\n" + Separator
  const TaskLabel := "TASK: "
  const AllowedTasks := "(Allowed tasks:\n"
    + "  - explain: Describe what the code does.\n"
    + "  - optimize: Suggest improvements for efficiency, readability, or maintainability.\n"
    + "  - security: Identify potential security vulnerabilities.\n"
    + "  - unit test: Generate comprehensive unit tests for the code.)\n"
  const Closing := "Provide only the final result.\n"

  /** The template text before the code. */
  const BeforeCode := (Header + "\n" + Separator) + CodeLabel
  /** The template text between the code and the task. */
  const BeforeTask := (CodeFence + "\n") + TaskLabel
  /** The template text after the task. */
  const AfterTask := "\n" + (AllowedTasks + "\n" + Closing)

  /** `get_system_prompt(code, task)`; defined for every code and task. */
  function GetSystemPrompt(code: string, task: string): string {
    BeforeCode + code + BeforeTask + task + AfterTask
  }

  /** `sub` occurs in `s` starting at index `i`. */
  predicate OccursAt(s: string, sub: string, i: nat) {
    i + |sub| <= |s| && s[i..i + |sub|] == sub
  }

  lemma Concat(a: string, b: string)
    ensures OccursAt(a + b, a, 0) && OccursAt(a + b, b, |a|)
  {
    assert (a + b)[..|a|] == a;
    assert (a + b)[|a|..|a| + |b|] == b;
  }

  lemma OccursWithin(s: string, t: string, u: string, i: nat, j: nat)
    requires OccursAt(s, t, i) && OccursAt(t, u, j)
    ensures OccursAt(s, u, i + j)
  {
    forall k | 0 <= k < |u|
      ensures s[i + j + k] == u[k]
    {
      assert s[i..i + |t|][j + k] == t[j..j + |u|][k];
    }
  }

  /** Where each of the five parts of `a + x + b + y + c` stands. */
  lemma {:induction false} FiveParts(a: string, x: string, b: string, y: string, c: string)
    ensures var s := a + x + b + y + c;
      OccursAt(s, a, 0) && OccursAt(s, x, |a|) && OccursAt(s, b, |a| + |x|)
      && OccursAt(s, y, |a| + |x| + |b|) && OccursAt(s, c, |a| + |x| + |b| + |y|)
  {
    var s := a + x + b + y + c;
    Concat(a + x + b + y, c);
    Concat(a + x + b, y);
    Concat(a + x, b);
    Concat(a, x);
    OccursWithin(s, a + x + b + y, a + x + b, 0, 0);
    OccursWithin(s, a + x + b, a + x, 0, 0);
    OccursWithin(s, a + x, a, 0, 0);
    OccursWithin(s, a + x + b + y, y, 0, |a| + |x| + |b|);
    OccursWithin(s, a + x + b, b, 0, |a| + |x|);
    OccursWithin(s, a + x, x, 0, |a|);
  }

  /** The prompt opens with the fixed header, closes with the fixed closing
      line, and is the template plus exactly the code and the task. */
  lemma PromptShape(code: string, task: string)
    ensures var prompt := GetSystemPrompt(code, task);
      |prompt| == |BeforeCode| + |BeforeTask| + |AfterTask| + |code| + |task|
      && OccursAt(prompt, Header, 0)
      && OccursAt(prompt, Closing, |prompt| - |Closing|)
  {
  }

  /** The code stands verbatim between the line `CODE:` and the next
      separator line, and the task verbatim after `TASK: ` and before the end
      of its line, whatever text either of them holds. */
  lemma CodeAndTaskVerbatim(code: string, task: string)
    ensures var prompt := GetSystemPrompt(code, task);
      OccursAt(prompt, CodeLabel + code + CodeFence, |BeforeCode| - |CodeLabel|)
      && OccursAt(prompt, TaskLabel + task + "\n", |BeforeCode| + |code| + |BeforeTask| - |TaskLabel|)
  {
    var pre := Header + "\n" + Separator;
    EmbeddedFirst(pre, CodeLabel, code, CodeFence, "\n", TaskLabel, task, AfterTask);
    EmbeddedSecond(BeforeCode + code + (CodeFence + "\n"), TaskLabel, task, "\n", AllowedTasks + "\n" + Closing);
  }

  /** Where the first tagged part of a prompt-shaped text stands. */
  lemma EmbeddedFirst(pre: string, tag: string, x: string, fence: string, gap: string,
                      rest1: string, rest2: string, rest3: string)
    ensures var s := (pre + tag) + x + ((fence + gap) + rest1) + rest2 + rest3;
      OccursAt(s, tag + x + fence, |pre|)
  {
    var s := (pre + tag) + x + ((fence + gap) + rest1) + rest2 + rest3;
    assert s == pre + (tag + x + fence) + (gap + rest1 + rest2 + rest3);
    Concat(pre, tag + x + fence);
    Concat(pre + (tag + x + fence), gap + rest1 + rest2 + rest3);
    OccursWithin(s, pre + (tag + x + fence), tag + x + fence, 0, |pre|);
  }

  /** Where the second tagged part of a prompt-shaped text stands. */
  lemma EmbeddedSecond(pre: string, tag: string, y: string, eol: string, rest: string)
    ensures var s := pre + tag + y + (eol + rest);
      OccursAt(s, tag + y + eol, |pre|)
  {
    var s := pre + tag + y + (eol + rest);
    assert s == pre + (tag + y + eol) + rest;
    Concat(pre, tag + y + eol);
    Concat(pre + (tag + y + eol), rest);
    OccursWithin(s, pre + (tag + y + eol), tag + y + eol, 0, |pre|);
  }

  /** The inverse of `GetSystemPrompt` once the length of the code is known:
      the code and the task of a prompt, or `None` for text that does not
      have the template's shape. */
  function Parse(prompt: string, codeLength: nat): Option<(string, string)> {
    var codeEnd := |BeforeCode| + codeLength;
    var taskStart := codeEnd + |BeforeTask|;
    if |prompt| < taskStart + |AfterTask| then None
    else if prompt[..|BeforeCode|] == BeforeCode
      && prompt[codeEnd..taskStart] == BeforeTask
      && prompt[|prompt| - |AfterTask|..] == AfterTask
    then Some((prompt[|BeforeCode|..codeEnd], prompt[taskStart..|prompt| - |AfterTask|]))
    else None
  }

  /** Building a prompt and parsing it back gives the same code and task. */
  lemma ParseBuilt(code: string, task: string)
    ensures Parse(GetSystemPrompt(code, task), |code|) == Some((code, task))
  {
    var prompt := GetSystemPrompt(code, task);
    FiveParts(BeforeCode, code, BeforeTask, task, AfterTask);
    assert prompt[|prompt| - |AfterTask|..] == AfterTask;
  }

  /** Whatever parses is exactly the prompt built from what it parses to. */
  lemma BuiltFromParsed(prompt: string, codeLength: nat)
    requires Parse(prompt, codeLength).Some?
    ensures var (code, task) := Parse(prompt, codeLength).value;
      |code| == codeLength && GetSystemPrompt(code, task) == prompt
  {
  }

  /** Two prompts for codes of equal length coincide only if code and task
      both coincide. */
  lemma PromptInjective(code1: string, task1: string, code2: string, task2: string)
    requires |code1| == |code2|
    requires GetSystemPrompt(code1, task1) == GetSystemPrompt(code2, task2)
    ensures code1 == code2 && task1 == task2
  {
    ParseBuilt(code1, task1);
    ParseBuilt(code2, task2);
  }
}
