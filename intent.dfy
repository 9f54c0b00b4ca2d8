/** The intent parser of the command-line agent (main.py, `parse_intent`):
    a request to launch an EC2 instance is recognised by substrings of the
    lower-cased text. */
module Intent {
  import opened Text

  const RunIntent := "run_ec2_instance"
  const UnknownIntent := "unknown"

  /** `word` occurs somewhere in the lower-cased text. */
  ghost predicate Mentions(text: string, word: string) {
    exists i: nat :: OccursAt(Lower(text), word, i)
  }

  /** The text asks to run an instance: ignoring case, `ec2` occurs in it,
      and so does `run` or `launch`. */
  ghost predicate AsksToRun(text: string) {
    Mentions(text, "ec2") && (Mentions(text, "run") || Mentions(text, "launch"))
  }

  /** `parse_intent`: one of the two intent names, the first exactly when
      the text asks to run an instance. */
  function ParseIntent(text: string): (r: string)
    ensures r == RunIntent || r == UnknownIntent
    ensures r == RunIntent <==> AsksToRun(text)
  {
    var lower := Lower(text);
    ContainsIff(lower, "ec2");
    ContainsIff(lower, "run");
    ContainsIff(lower, "launch");
    if Contains(lower, "ec2") && (Contains(lower, "run") || Contains(lower, "launch")) then RunIntent
    else UnknownIntent
  }

  /** Case does not matter: the lower-cased text has the same intent. */
  lemma ParseIgnoresCase(text: string)
    ensures ParseIntent(Lower(text)) == ParseIntent(text)
  {
    LowerIdempotent(text);
  }

  /** The words need not stand alone: any occurrence of `ec2` and of `run`
      inside the lower-cased text is enough. */
  lemma SubstringsSuffice(text: string, i: nat, j: nat)
    requires OccursAt(Lower(text), "ec2", i) && OccursAt(Lower(text), "run", j)
    ensures ParseIntent(text) == RunIntent
  {
    ContainsAt(Lower(text), "ec2", i);
    ContainsAt(Lower(text), "run", j);
  }

  /** Without `ec2` the intent is unknown, whatever verb appears. */
  lemma NoEc2NoIntent(text: string)
    requires !Mentions(text, "ec2")
    ensures ParseIntent(text) == UnknownIntent
  {
  }

  /** "Please run an EC2 instance" asks to run an instance. */
  lemma PleaseRunExample()
    ensures ParseIntent("Please run an EC2 instance") == RunIntent
  {
    var lower := Lower("Please run an EC2 instance");
    assert lower[7..10] == "run";
    assert lower[14..17] == "ec2";
    SubstringsSuffice("Please run an EC2 instance", 14, 7);
  }

  /** "Launch EC2 now" asks to run an instance, despite the capitals. */
  lemma LaunchExample()
    ensures ParseIntent("Launch EC2 now") == RunIntent
  {
    var lower := Lower("Launch EC2 now");
    assert lower[0..6] == "launch";
    assert lower[7..10] == "ec2";
    ContainsAt(lower, "launch", 0);
    ContainsAt(lower, "ec2", 7);
  }

  /** "Something else" has no intent. */
  lemma SomethingElseExample()
    ensures ParseIntent("Something else") == UnknownIntent
  {
    AbsentChar(Lower("Something else"), "ec2", 2);
  }

  /** "run t2.micro" has a `2` but no `ec2`, so the intent is unknown. */
  lemma TwoWithoutEc2Example()
    ensures ParseIntent("run t2.micro") == UnknownIntent
  {
    var lower := Lower("run t2.micro");
    assert lower == "run t2.micro";
    AbsentChar(lower, "ec2", 0);
    ContainsIff(lower, "ec2");
    NoEc2NoIntent("run t2.micro");
  }

  /** A verb hidden inside another word still counts: "truncate" contains
      "run". */
  lemma HiddenVerbExample()
    ensures ParseIntent("ec2 truncate") == RunIntent
  {
    var lower := Lower("ec2 truncate");
    assert lower[0..3] == "ec2";
    assert lower[5..8] == "run";
    SubstringsSuffice("ec2 truncate", 0, 5);
  }
}
