/** The prompt sent to the model: a fixed template literal with the career,
    the experience level and the goals interpolated, in that order, on its
    third line. */
module Prompt {
  import opened Fences

  /** The template text before `${career}`: the instruction to answer in
      plain JSON, a blank line, and the start of the request sentence. */
  const Preamble: string :=
    "Generate a career roadmap in JSON format. The response should be valid JSON without any markdown or additional text.\n"
    + "\n"
    + "For someone who wants to become a "

  /** The template text between `${career}` and `${experience}`. */
  const BeforeExperience: string := ", with "

  /** The template text between `${experience}` and `${goals}`. */
  const BeforeGoals: string := " experience level and the following goals: "

  /** The template text after `${goals}`: the required JSON structure. */
  const ShapeDescription: string :=
    "\n"
    + "\n"
    + "Required JSON structure:\n"
    + "{\n"
    + "  \"title\": \"Career Roadmap for [Career]\",\n"
    + "  \"description\": \"A brief overview of the career path\",\n"
    + "  \"steps\": [\n"
    + "    {\n"
    + "      \"title\": \"Step title\",\n"
    + "      \"description\": \"Detailed description of the step\",\n"
    + "      \"duration\": \"Estimated time to complete this step\",\n"
    + "      \"resources\": [\"Resource 1\", \"Resource 2\"]\n"
    + "    }\n"
    + "  ]\n"
    + "}"

  /** The template literal with the three interpolated strings. */
  function BuildPrompt(career: string, experience: string, goals: string): (p: string)
    ensures |p| == |Preamble| + |career| + |BeforeExperience| + |experience| + |BeforeGoals| + |goals| + |ShapeDescription|
  {
    Preamble + career + BeforeExperience + experience + BeforeGoals + goals + ShapeDescription
  }

  /** A slice that ends inside the left operand of a concatenation is a slice of it. */
  lemma SliceOfLeft(q: string, d: string, i: nat, j: nat)
    requires i <= j <= |q|
    ensures (q + d)[i..j] == q[i..j]
  {
  }

  /** A slice that starts at the end of the left operand gives the right operand back. */
  lemma SliceOfRight(q: string, d: string)
    ensures (q + d)[|q|..] == d
    ensures (q + d)[|q|..|q| + |d|] == d
  {
  }

  /** Slicing a seven-part concatenation at the part boundaries gives back
      the parts; stated for any seven strings so that the template's long
      literals never have to be unfolded. */
  lemma SplitSeven(a: string, x: string, b: string, y: string, c: string, z: string, d: string)
    ensures var p := a + x + b + y + c + z + d;
      var i := |a|;
      var j := i + |x| + |b|;
      var k := j + |y| + |c|;
      && p[..i] == a
      && p[i..i + |x|] == x
      && p[i + |x|..j] == b
      && p[j..j + |y|] == y
      && p[j + |y|..k] == c
      && p[k..k + |z|] == z
      && p[k + |z|..] == d
  {
    // The prefixes of the concatenation, one more part each time.
    var q1 := a + x;
    var q2 := q1 + b;
    var q3 := q2 + y;
    var q4 := q3 + c;
    var q5 := q4 + z;
    var p := q5 + d;
    SliceOfRight(q5, d);
    SliceOfLeft(q5, d, |q4|, |q5|);
    SliceOfRight(q4, z);
    SliceOfLeft(q5, d, |q3|, |q4|);
    SliceOfLeft(q4, z, |q3|, |q4|);
    SliceOfRight(q3, c);
    SliceOfLeft(q5, d, |q2|, |q3|);
    SliceOfLeft(q4, z, |q2|, |q3|);
    SliceOfLeft(q3, c, |q2|, |q3|);
    SliceOfRight(q2, y);
    SliceOfLeft(q5, d, |q1|, |q2|);
    SliceOfLeft(q4, z, |q1|, |q2|);
    SliceOfLeft(q3, c, |q1|, |q2|);
    SliceOfLeft(q2, y, |q1|, |q2|);
    SliceOfRight(q1, b);
    SliceOfLeft(q5, d, |a|, |q1|);
    SliceOfLeft(q4, z, |a|, |q1|);
    SliceOfLeft(q3, c, |a|, |q1|);
    SliceOfLeft(q2, y, |a|, |q1|);
    SliceOfLeft(q1, b, |a|, |q1|);
    SliceOfRight(a, x);
    SliceOfLeft(q5, d, 0, |a|);
    SliceOfLeft(q4, z, 0, |a|);
    SliceOfLeft(q3, c, 0, |a|);
    SliceOfLeft(q2, y, 0, |a|);
    SliceOfLeft(q1, b, 0, |a|);
    SliceOfLeft(a, x, 0, |a|);
  }

  /** Each input appears verbatim at a position fixed by the lengths of the
      inputs before it, between the fixed pieces of the template, and the
      prompt ends with the required JSON structure. */
  lemma PromptLayout(career: string, experience: string, goals: string)
    ensures var p := BuildPrompt(career, experience, goals);
      var c := |Preamble|;
      var e := c + |career| + |BeforeExperience|;
      var g := e + |experience| + |BeforeGoals|;
      && p[..c] == Preamble
      && p[c..c + |career|] == career
      && p[c + |career|..e] == BeforeExperience
      && p[e..e + |experience|] == experience
      && p[e + |experience|..g] == BeforeGoals
      && p[g..g + |goals|] == goals
      && p[g + |goals|..] == ShapeDescription
  {
    SplitSeven(Preamble, career, BeforeExperience, experience, BeforeGoals, goals, ShapeDescription);
  }

  /** The inner parts and the last part of a seven-part concatenation occur in it. */
  lemma PartsOccur(a: string, x: string, b: string, y: string, c: string, z: string, d: string)
    ensures var p := a + x + b + y + c + z + d;
      Occurs(x, p) && Occurs(y, p) && Occurs(z, p) && Occurs(d, p)
  {
    var p := a + x + b + y + c + z + d;
    SplitSeven(a, x, b, y, c, z, d);
    var i := |a|;
    var j := i + |x| + |b|;
    var k := j + |y| + |c|;
    OccursAtGivesOccurs(x, p, i);
    OccursAtGivesOccurs(y, p, j);
    OccursAtGivesOccurs(z, p, k);
    assert p[k + |z|..k + |z| + |d|] == d;
    OccursAtGivesOccurs(d, p, k + |z|);
  }

  /** The three inputs and the required JSON structure are substrings of the prompt. */
  lemma PromptContainsInputs(career: string, experience: string, goals: string)
    ensures var p := BuildPrompt(career, experience, goals);
      Occurs(career, p) && Occurs(experience, p) && Occurs(goals, p) && Occurs(ShapeDescription, p)
  {
    PartsOccur(Preamble, career, BeforeExperience, experience, BeforeGoals, goals, ShapeDescription);
  }

  /** The prompt determines each input once the lengths of the others are
      known: equal prompts built from inputs of equal lengths come from equal
      inputs. */
  lemma PromptInjectiveForEqualLengths(c1: string, e1: string, g1: string, c2: string, e2: string, g2: string)
    requires |c1| == |c2| && |e1| == |e2|
    requires BuildPrompt(c1, e1, g1) == BuildPrompt(c2, e2, g2)
    ensures c1 == c2 && e1 == e2 && g1 == g2
  {
    PromptLayout(c1, e1, g1);
    PromptLayout(c2, e2, g2);
  }
}
