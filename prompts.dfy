/**
 * The two prompts the SOW handler (`sow.py`) sends to the chat-completion
 * service, with their fixed instruction texts.
 */
module Prompts {
  import opened Common
  import opened Text

  const SowModel := "gpt-4-turbo"

  /** The fixed texts around the variable parts of the prompts: the system
      prompt around the date, the user prompt's instructions before the context,
      the headings of the four form fields and the closing instruction. */
  datatype PromptTexts = PromptTexts(systemHead: string, systemTail: string, userIntro: string,
                                     problemHeading: string, participantsHeading: string,
                                     stackHeading: string, timelineHeading: string, userOutro: string)

  /** The texts `sow.py` uses. */
  const SowTexts := PromptTexts(
    // system prompt, up to the date
      "Assume the problem statement is referencing something to be solved in the future. "
      + "Never, ever use people or company names from embedding.\n"
      + "You are an expert SOW writer for a fractional Rev Ops agency leveraging David Maxey's AI enhanced solution library.\n"
      + "You have access to our AI Enhanced Library of Revenue Operations solutions, including 50+ articles and proven frameworks.\n"
      + "Your task is to draft a clean, creative, and professional Statement of Work dated ",
    // system prompt, after the date
      ".\n"
      + "Draw on specific models, case studies, and examples in the library to propose tailored deliverables.\n"
      + "Timelines should scale with deliverable count: shorter timelines = fewer deliverables; longer timelines = more.\n"
      + "Output only HTML using <h1> for header, <h3> for paragraph titles, <ul>/<ol> for lists, <p> for paragraphs.\n"
      + "Include a clear Deliverables section and a professional Exclusions clause covering anything not core to the problem.\n"
      + "If essential details (timeline, technology, KPIs) are missing, reply: "
      + "'Please provide more information including technology, processes, and KPIs.'",
    // user prompt, after the date line, up to the context
      "\n"
      + "Never use company names like Sinalite or Boas or Marine or anything that resembles a company name or person's name in the output\n"
      + "You are a senior consultant at Rev Ops Agency preparing a formal Statement of Work.\n"
      + "Incorporate problem statement, stakeholder details, timeline, GTM stack, and library insights.\n\n"
      + "Use DuckDuckGo integration to pull more updated information about GTM stack capabilities and integrate into deliverables\n"
      + "Context:\n",
    // the field headings, each after a blank line
      "\n\nProblem Statement:\n",
      "\n\nStakeholders / Participants:\n",
      "\n\nGTM Stack:\n",
      "\n\nProposed Timeline:\n",
    // user prompt, the closing instruction after a blank line
      "\n\nGenerate the full SOW in HTML only, with SMART deliverables and professional exclusions. "
      + "The last portion should be 'Future State / Outcomes', outlining the value and outcomes.")

  /** The four form fields the handler reads. */
  datatype SowForm = SowForm(problem: string, participants: string, gtmStack: string, timeline: string)

  /** `system_msg`, dated: the date can be read back between the fixed texts. */
  function SystemMessage(texts: PromptTexts, date: string): (r: string)
    ensures |r| == |texts.systemHead| + |date| + |texts.systemTail|
    ensures StartsWith(r, texts.systemHead) && EndsWith(r, texts.systemTail)
    ensures r[|texts.systemHead|..|r| - |texts.systemTail|] == date
  {
    texts.systemHead + date + texts.systemTail
  }

  /** A slice within a prefix of `r` is that slice of the prefix. */
  lemma PrefixSlice(x: string, r: string, i: int, j: int)
    requires |x| <= |r| && r[..|x|] == x && 0 <= i <= j <= |x|
    ensures r[i..j] == x[i..j]
  {
    forall k | 0 <= k < j - i
      ensures r[i..j][k] == x[i..j][k]
    {
      assert r[..|x|][i + k] == r[i + k];
    }
  }

  /** Nine strings written one after the other: the first five can be read back at their offsets. */
  lemma {:induction false} ReadBackFirst(a0: string, a1: string, a2: string, a3: string, a4: string,
                                         a5: string, a6: string, a7: string, a8: string)
    ensures var r := a0 + a1 + a2 + a3 + a4 + a5 + a6 + a7 + a8;
            var o1 := |a0|;
            var o2 := o1 + |a1|;
            var o3 := o2 + |a2|;
            var o4 := o3 + |a3|;
            var o5 := o4 + |a4|;
            && r[..o1] == a0
            && r[o1..o2] == a1
            && r[o2..o3] == a2
            && r[o3..o4] == a3
            && r[o4..o5] == a4
  {
    var x0 := a0;
    var x1 := x0 + a1;
    var x2 := x1 + a2;
    var x3 := x2 + a3;
    var x4 := x3 + a4;
    var x5 := x4 + a5;
    var x6 := x5 + a6;
    var x7 := x6 + a7;
    var x8 := x7 + a8;
    assert x8[..|x7|] == x7;
    assert x8[..|x6|] == x6 by { assert x8[..|x7|][..|x6|] == x8[..|x6|]; }
    assert x8[..|x5|] == x5 by { assert x8[..|x6|][..|x5|] == x8[..|x5|]; }
    assert x8[..|x4|] == x4 by { assert x8[..|x5|][..|x4|] == x8[..|x4|]; }
    assert x8[..|x3|] == x3 by { assert x8[..|x4|][..|x3|] == x8[..|x3|]; }
    assert x8[..|x2|] == x2 by { assert x8[..|x3|][..|x2|] == x8[..|x2|]; }
    assert x8[..|x1|] == x1 by { assert x8[..|x2|][..|x1|] == x8[..|x1|]; }
    assert x8[..|x0|] == x0 by { assert x8[..|x1|][..|x0|] == x8[..|x0|]; }
    PrefixSlice(x0, x8, 0, |x0|);
    assert x8[|x0|..|x1|] == a1 by { PrefixSlice(x1, x8, |x0|, |x1|); assert x1[|x0|..] == a1; }
    assert x8[|x1|..|x2|] == a2 by { PrefixSlice(x2, x8, |x1|, |x2|); assert x2[|x1|..] == a2; }
    assert x8[|x2|..|x3|] == a3 by { PrefixSlice(x3, x8, |x2|, |x3|); assert x3[|x2|..] == a3; }
    assert x8[|x3|..|x4|] == a4 by { PrefixSlice(x4, x8, |x3|, |x4|); assert x4[|x3|..] == a4; }
  }

  /** Nine strings written one after the other: the last four can be read back at their offsets. */
  lemma {:induction false} ReadBackLast(a0: string, a1: string, a2: string, a3: string, a4: string,
                                        a5: string, a6: string, a7: string, a8: string)
    ensures var r := a0 + a1 + a2 + a3 + a4 + a5 + a6 + a7 + a8;
            var o1 := |a0|;
            var o2 := o1 + |a1|;
            var o3 := o2 + |a2|;
            var o4 := o3 + |a3|;
            var o5 := o4 + |a4|;
            var o6 := o5 + |a5|;
            var o7 := o6 + |a6|;
            var o8 := o7 + |a7|;
            && |r| == o8 + |a8|
            && r[o5..o6] == a5
            && r[o6..o7] == a6
            && r[o7..o8] == a7
            && r[o8..] == a8
  {
    var x0 := a0;
    var x1 := x0 + a1;
    var x2 := x1 + a2;
    var x3 := x2 + a3;
    var x4 := x3 + a4;
    var x5 := x4 + a5;
    var x6 := x5 + a6;
    var x7 := x6 + a7;
    var x8 := x7 + a8;
    assert x8[..|x7|] == x7;
    assert x8[..|x6|] == x6 by { assert x8[..|x7|][..|x6|] == x8[..|x6|]; }
    assert x8[..|x5|] == x5 by { assert x8[..|x6|][..|x5|] == x8[..|x5|]; }
    assert x8[|x4|..|x5|] == a5 by { PrefixSlice(x5, x8, |x4|, |x5|); assert x5[|x4|..] == a5; }
    assert x8[|x5|..|x6|] == a6 by { PrefixSlice(x6, x8, |x5|, |x6|); assert x6[|x5|..] == a6; }
    assert x8[|x6|..|x7|] == a7 by { PrefixSlice(x7, x8, |x6|, |x7|); assert x7[|x6|..] == a7; }
    assert x8[|x7|..|x8|] == a8 by { PrefixSlice(x8, x8, |x7|, |x8|); assert x8[|x7|..] == a8; }
  }

  /** The user prompt up to the problem statement: the date line, the fixed
      instructions, the context and the problem heading. */
  function UserHead(texts: PromptTexts, date: string, context: string): string {
    "Document Date: " + date + texts.userIntro + context + texts.problemHeading
  }

  /** `user_msg`: the date line, the fixed instructions, then the context and
      each form field under its heading, then the closing instruction. Each
      field can be read back right after its heading. */
  function UserMessage(texts: PromptTexts, date: string, context: string, form: SowForm): (r: string)
    ensures var h := |UserHead(texts, date, context)|;
            var p := h + |form.problem| + |texts.participantsHeading|;
            var g := p + |form.participants| + |texts.stackHeading|;
            var t := g + |form.gtmStack| + |texts.timelineHeading|;
            && |r| == t + |form.timeline| + |texts.userOutro|
            && r[..h] == UserHead(texts, date, context)
            && r[h..h + |form.problem|] == form.problem
            && r[h + |form.problem|..p] == texts.participantsHeading
            && r[p..p + |form.participants|] == form.participants
            && r[p + |form.participants|..g] == texts.stackHeading
            && r[g..g + |form.gtmStack|] == form.gtmStack
            && r[g + |form.gtmStack|..t] == texts.timelineHeading
            && r[t..t + |form.timeline|] == form.timeline
            && r[t + |form.timeline|..] == texts.userOutro
  {
    ReadBackFirst(UserHead(texts, date, context), form.problem, texts.participantsHeading, form.participants,
                  texts.stackHeading, form.gtmStack, texts.timelineHeading, form.timeline, texts.userOutro);
    ReadBackLast(UserHead(texts, date, context), form.problem, texts.participantsHeading, form.participants,
                 texts.stackHeading, form.gtmStack, texts.timelineHeading, form.timeline, texts.userOutro);
    UserHead(texts, date, context) + form.problem + texts.participantsHeading + form.participants
    + texts.stackHeading + form.gtmStack + texts.timelineHeading + form.timeline + texts.userOutro
  }

  /** The deterministic chat request the handler sends. */
  function SowRequest(texts: PromptTexts, date: string, context: string, form: SowForm): (r: ChatRequest)
    ensures r.model == SowModel && r.temperature == 0
    ensures r.messages == [Message(System, SystemMessage(texts, date)), Message(User, UserMessage(texts, date, context, form))]
  {
    ChatRequest(SowModel, [Message(System, SystemMessage(texts, date)), Message(User, UserMessage(texts, date, context, form))], 0)
  }
}
