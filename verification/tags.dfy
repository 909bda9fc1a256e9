/** Tags derived from a finished session: one per tool used, plus topical
    tags chosen by a fixed keyword table over the opening messages. */
module Tags {
  import opened Strings
  import opened Records

  datatype Topic = Topic(tag: string, keywords: seq<string>)

  /** The fixed keyword table; a topic's tag is added when any of its keywords occurs. */
  const Topics: seq<Topic> := [
    Topic("debugging", ["error", "bug", "fix", "debug"]),
    Topic("refactoring", ["refactor", "cleanup", "restructure"]),
    Topic("feature", ["implement", "add feature", "new feature"]),
    Topic("testing", ["test", "spec", "coverage"]),
    Topic("documentation", ["document", "readme", "comment"])
  ]

  /** Only this many opening messages are searched for keywords. */
  const Window: nat := 5

  function SpacedLower(msgs: seq<Message>): string
    decreases |msgs|
  {
    if |msgs| == 0 then "" else ToLower(msgs[0].content) + " " + SpacedLower(msgs[1..])
  }

  /** The text keywords are searched in: the lower-cased contents of the
      first five messages, each followed by a space. */
  function TagText(msgs: seq<Message>): string {
    SpacedLower(if |msgs| <= Window then msgs else msgs[..Window])
  }

  predicate AnyKeyword(text: string, keywords: seq<string>) {
    exists k :: 0 <= k < |keywords| && Contains(text, keywords[k])
  }

  function TopicTags(topics: seq<Topic>, text: string): set<string> {
    set i | 0 <= i < |topics| && AnyKeyword(text, topics[i].keywords) :: topics[i].tag
  }

  function ToolTags(tools: map<string, ToolStats>): set<string> {
    set n | n in tools :: "tool:" + n
  }

  function GenerateTags(s: Session): set<string> {
    ToolTags(s.tools) + TopicTags(Topics, TagText(s.messages))
  }

  lemma NoTopicIsAToolTag(n: string)
    ensures forall i :: 0 <= i < |Topics| ==> Topics[i].tag != "tool:" + n
  {
    forall i | 0 <= i < |Topics|
      ensures Topics[i].tag != "tool:" + n
    {
      var t := "tool:" + n;
      assert t[4] == ':';
      assert Topics[i].tag[4] != ':' by {
        if i == 0 {} else if i == 1 {} else if i == 2 {} else if i == 3 {} else {}
      }
    }
  }

  /** A `tool:<name>` tag is present exactly for the tools the session used. */
  lemma ToolTagIff(s: Session, n: string)
    ensures ("tool:" + n) in GenerateTags(s) <==> n in s.tools
  {
    NoTopicIsAToolTag(n);
    if ("tool:" + n) in ToolTags(s.tools) {
      var m :| m in s.tools && "tool:" + m == "tool:" + n;
      assert ("tool:" + m)[5..] == m;
      assert ("tool:" + n)[5..] == n;
    }
  }

  /** A topical tag is present exactly when one of its keywords occurs in the
      lower-cased opening messages. */
  lemma TopicTagIff(s: Session, i: nat)
    requires i < |Topics|
    ensures Topics[i].tag in GenerateTags(s)
        <==> exists k :: 0 <= k < |Topics[i].keywords| && Contains(TagText(s.messages), Topics[i].keywords[k])
  {
    var t := Topics[i].tag;
    if t in ToolTags(s.tools) {
      var m :| m in s.tools && "tool:" + m == t;
      NoTopicIsAToolTag(m);
    }
    assert forall j :: 0 <= j < |Topics| && Topics[j].tag == t ==> j == i;
  }

  /** Messages after the fifth never influence the tags. */
  lemma LaterMessagesIgnored(s: Session, later: seq<Message>)
    requires |s.messages| >= Window
    ensures GenerateTags(s.(messages := s.messages + later)) == GenerateTags(s)
  {
    var longer := s.messages + later;
    var window := s.messages[..Window];
    assert longer[..Window] == window;
    if |s.messages| == Window {
      assert s.messages == window;
    }
    if |longer| <= Window {
      assert longer == s.messages;
    }
    assert TagText(longer) == SpacedLower(window);
    assert TagText(s.messages) == SpacedLower(window);
  }

  lemma {:induction false} ContainsExtends(s: string, more: string, kw: string)
    requires Contains(s, kw)
    ensures Contains(s + more, kw)
  {
    var i :| 0 <= i <= |s| && HasPrefix(s[i..], kw);
    assert (s + more)[i..][..|kw|] == s[i..][..|kw|];
  }

  /** "I found a bug, let's debug" as the opening message yields `debugging`. */
  lemma DebuggingExample(s: Session)
    requires |s.messages| >= 1 && s.messages[0].content == "I found a bug, let's debug"
    ensures "debugging" in GenerateTags(s)
  {
    var msgs := if |s.messages| <= Window then s.messages else s.messages[..Window];
    var first := ToLower(s.messages[0].content) + " ";
    assert msgs[0] == s.messages[0];
    assert TagText(s.messages) == first + SpacedLower(msgs[1..]);
    assert first[10..][..3] == "bug";
    assert Contains(first, "bug");
    ContainsExtends(first, SpacedLower(msgs[1..]), "bug");
    assert Topics[0].keywords[1] == "bug";
    TopicTagIff(s, 0);
  }
}
