/** The server rules: two fixed lists of named sections (Discord rules and
    Minecraft server rules), the Discord list editable in memory. */
module Rules {
  import opened Util

  datatype Section = Section(name: string, rules: seq<string>)

  const DiscordTitle: string := "\U{1F3AD} DELIRIUM DEN RULES"

  const DiscordSections1to5: seq<Section> := [
    Section("1. Follow Discord TOS", [
      "If Discord says not to do it, don't do it"]),
    Section("2. Just generally don't be a dick man, not that hard", [
      "Just be decent to people, don't make people uncomfortable or anything",
      "Most of the rules tie into this one"]),
    Section("3. No bigotry in any form", [
      "Bigotry is prejudice against a person or people on the basis of their membership of a particular group",
      "You will almost always get banned"]),
    Section("4. No NSFW or acting overly sexual at ALL", [
      "This includes NSFW jokes, innuendos, or anything that's even a tad bit too sexual"]),
    Section("5. No excessive trash talk, death threats, or any other form of extreme disrespect", [
      "Playful teasing is fine, but don't take it too far",
      "Even as a joke"])
  ]

  const DiscordSections6to10: seq<Section> := [
    Section("6. Try to take major disputes/debates to DMs, and remember to follow rule 5", [
      "Just to keep things civil in the server, keep arguments out of here"]),
    Section("7. No slurs or excessive swearing", [
      "Some swearing is fine and expected, but don't go over the top",
      "Slurs will almost ALWAYS get you banned"]),
    Section("8. No doxxing, sending images of someone's face without consent, or anything like that", [
      "Don't share anyone's private info, ever"]),
    Section("9. No self-promotion outside of designated spaces", [
      "Don't drop your socials outside of the self promo channel",
      "Don't share discord links ever except for partners"]),
    Section("10. No spamming", [
      "Especially mentions, but all spam is unwelcome here"])
  ]

  const DiscordSections11to15: seq<Section> := [
    Section("11. Keep things in the right channels", [
      "Don't send images in general unless they directly contribute to the conversation (you WILL be muted)",
      "Don't put stuff in a place that it doesn't belong"]),
    Section("12. English only", [
      "Unless a staff member gives you permission, keep the chat English only"]),
    Section("13. No controversial/offensive topics", [
      "Avoid politics, religion, or other controversial topics"]),
    Section("14. Staff members can interpret this list of rules however they'd like", [
      "Staff can punish you for things not on this list if it makes members uncomfortable",
      "If you think you've been unfairly punished by a staff member, please contact one of their higher-ups"]),
    Section("\U{26A0}\U{FE0F} Warn/Strike System", [
      "**1 Warn** - 1 hour timeout",
      "**2 Warns** - 1 day timeout",
      "**3 Warns** - 3 day timeout",
      "**4 Warns** - 1 week ban",
      "**5 Warns** - 2 week ban",
      "**6 Warns** - 1 month ban",
      "**7 Warns** - Permaban"])
  ]

  const DiscordDefaults: seq<Section> := DiscordSections1to5 + DiscordSections6to10 + DiscordSections11to15

  const MinecraftTitle: string := "\U{26CF}\U{FE0F} DELIRIUM DEN MINECRAFT SERVER RULES"

  const MinecraftDescription: string :=
    "**Welcome to the Delirium Den Survival Multiplayer Server!**\n\nOur SMP is designed to provide a fun, collaborative Minecraft experience. To ensure everyone enjoys their time in our chaotic world, please follow these guidelines:"

  const MinecraftFooter: string :=
    "Remember: This is the Delirium Den community server! Be respectful, embrace the madness, and help create an awesome SMP experience for everyone in our den of chaos."

  const MinecraftDefaults: seq<Section> := [
    Section("1. Gameplay Rules", [
      "No griefing or destroying other players' builds",
      "No stealing items from other players' chests/bases",
      "No cheating, hacking, or using unapproved mods/clients",
      "PvP is allowed only with mutual consent"]),
    Section("2. Building Guidelines", [
      "Maintain a reasonable distance from other players' bases",
      "Clean up floating trees and creeper holes",
      "No excessive redstone that causes server lag",
      "No claiming massive areas without actively building"]),
    Section("3. Community & Resources", [
      "Respect community areas and public farms",
      "Don't harvest other players' crops without replanting",
      "Leave some resources in public mining areas",
      "Contribute to community projects when possible"]),
    Section("4. Technical Rules", [
      "No lag machines or contraptions that impact server performance",
      "Report bugs to staff instead of exploiting them",
      "AFK responsibly and avoid overloading mob farms",
      "Follow staff directions regarding technical limitations"]),
    Section("5. Delirium Den Specific Guidelines", [
      "Embrace the chaos, but don't create chaos for others",
      "Creative pranks are welcome if they don't cause permanent damage",
      "Help newcomers navigate the madness",
      "Document your wildest builds for the community to admire"])
  ]

  /** The number of rules over all sections. */
  function TotalRules(sections: seq<Section>): nat
    decreases |sections|
  {
    if sections == [] then 0 else |sections[0].rules| + TotalRules(sections[1..])
  }

  lemma {:induction false} TotalRulesAppend(a: seq<Section>, b: seq<Section>)
    ensures TotalRules(a + b) == TotalRules(a) + TotalRules(b)
    decreases |a|
  {
    if a == [] {
      assert a + b == b;
    } else {
      assert (a + b)[1..] == a[1..] + b;
      TotalRulesAppend(a[1..], b);
    }
  }

  lemma DiscordCounts1()
    ensures |DiscordSections1to5| == 5 && TotalRules(DiscordSections1to5) == 8
  {
    var d := DiscordSections1to5;
    assert TotalRules(d[5..]) == 0;
    assert TotalRules(d[4..]) == 2;
    assert TotalRules(d[3..]) == 3;
    assert TotalRules(d[2..]) == 5;
    assert TotalRules(d[1..]) == 7;
  }

  lemma DiscordCounts2()
    ensures |DiscordSections6to10| == 5 && TotalRules(DiscordSections6to10) == 7
  {
    var d := DiscordSections6to10;
    assert TotalRules(d[5..]) == 0;
    assert TotalRules(d[4..]) == 1;
    assert TotalRules(d[3..]) == 3;
    assert TotalRules(d[2..]) == 4;
    assert TotalRules(d[1..]) == 6;
  }

  lemma DiscordCounts3()
    ensures |DiscordSections11to15| == 5 && TotalRules(DiscordSections11to15) == 13
  {
    var d := DiscordSections11to15;
    assert TotalRules(d[5..]) == 0;
    assert TotalRules(d[4..]) == 7;
    assert TotalRules(d[3..]) == 9;
    assert TotalRules(d[2..]) == 10;
    assert TotalRules(d[1..]) == 11;
  }

  /** The default Discord list has 15 sections holding 28 rules. */
  lemma DiscordDefaultCounts()
    ensures |DiscordDefaults| == 15 && TotalRules(DiscordDefaults) == 28
  {
    DiscordCounts1();
    DiscordCounts2();
    DiscordCounts3();
    TotalRulesAppend(DiscordSections1to5, DiscordSections6to10);
    TotalRulesAppend(DiscordSections1to5 + DiscordSections6to10, DiscordSections11to15);
  }

  /** The default Minecraft list has 5 sections of 4 rules each. */
  lemma MinecraftDefaultCounts()
    ensures |MinecraftDefaults| == 5 && TotalRules(MinecraftDefaults) == 20
    ensures forall i | 0 <= i < |MinecraftDefaults| :: |MinecraftDefaults[i].rules| == 4
  {
    var m := MinecraftDefaults;
    assert TotalRules(m[5..]) == 0;
    assert TotalRules(m[4..]) == 4;
    assert TotalRules(m[3..]) == 8;
    assert TotalRules(m[2..]) == 12;
    assert TotalRules(m[1..]) == 16;
  }

  /** Replacing one section changes the total by the difference of the two
      sections' rule counts. */
  lemma {:induction false} TotalRulesUpdate(sections: seq<Section>, i: nat, x: Section)
    requires i < |sections|
    ensures TotalRules(sections[i := x]) + |sections[i].rules| == TotalRules(sections) + |x.rules|
    decreases i
  {
    if i == 0 {
      assert sections[0 := x][1..] == sections[1..];
    } else {
      assert sections[i := x][1..] == sections[1..][i - 1 := x];
      TotalRulesUpdate(sections[1..], i - 1, x);
    }
  }

  /** Whether a section and rule number, counted from 0, name a rule. */
  predicate RuleExists(sections: seq<Section>, s: int, r: int)
  {
    0 <= s < |sections| && 0 <= r < |sections[s].rules|
  }

  /** rules_edit on sections: the one rule replaced, or None for a position
      that names no rule. */
  function EditRule(sections: seq<Section>, s: int, r: int, text: string): (result: Option<seq<Section>>)
    ensures result.Some? <==> RuleExists(sections, s, r)
    ensures result.Some? ==>
      |result.value| == |sections|
      && (forall j | 0 <= j < |sections| && j != s :: result.value[j] == sections[j])
      && result.value[s].name == sections[s].name
      && |result.value[s].rules| == |sections[s].rules|
      && result.value[s].rules[r] == text
      && (forall k | 0 <= k < |sections[s].rules| && k != r :: result.value[s].rules[k] == sections[s].rules[k])
  {
    if RuleExists(sections, s, r) then
      Some(sections[s := sections[s].(rules := sections[s].rules[r := text])])
    else None
  }

  /** rules_add on sections: the rule appended to the section, or None for a
      section number out of range. */
  function AddRule(sections: seq<Section>, s: int, text: string): (result: Option<seq<Section>>)
    ensures result.Some? <==> 0 <= s < |sections|
    ensures result.Some? ==>
      |result.value| == |sections|
      && (forall j | 0 <= j < |sections| && j != s :: result.value[j] == sections[j])
      && result.value[s].name == sections[s].name
      && result.value[s].rules == sections[s].rules + [text]
  {
    if 0 <= s < |sections| then
      Some(sections[s := sections[s].(rules := sections[s].rules + [text])])
    else None
  }

  /** Editing keeps the number of rules; adding raises it by one. */
  lemma EditAddTotals(sections: seq<Section>, s: int, r: int, text: string)
    ensures EditRule(sections, s, r, text).Some? ==> TotalRules(EditRule(sections, s, r, text).value) == TotalRules(sections)
    ensures AddRule(sections, s, text).Some? ==> TotalRules(AddRule(sections, s, text).value) == TotalRules(sections) + 1
  {
    if 0 <= s < |sections| {
      TotalRulesUpdate(sections, s, sections[s].(rules := sections[s].rules + [text]));
      if r >= 0 && r < |sections[s].rules| {
        TotalRulesUpdate(sections, s, sections[s].(rules := sections[s].rules[r := text]));
      }
    }
  }

  /** A section's rules as bulleted lines. */
  function Bullets(rules: seq<string>): seq<string>
  {
    seq(|rules|, i requires 0 <= i < |rules| => "\U{2022} " + rules[i])
  }

  /** The text of a section's embed field. */
  function SectionText(rules: seq<string>): string
  {
    Join(Bullets(rules), "\n")
  }

  /** Editing a rule changes exactly its own line of the section's text. */
  lemma EditChangesOneLine(rules: seq<string>, r: nat, text: string)
    requires r < |rules|
    ensures Bullets(rules[r := text]) == Bullets(rules)[r := "\U{2022} " + text]
  {
  }

  /** Adding a rule appends one bulleted line to the section's text. */
  lemma AddAppendsLine(rules: seq<string>, text: string)
    ensures SectionText(rules + [text]) ==
      if rules == [] then "\U{2022} " + text else SectionText(rules) + "\n" + "\U{2022} " + text
  {
    assert Bullets(rules + [text]) == Bullets(rules) + ["\U{2022} " + text];
    JoinAppend(Bullets(rules), "\U{2022} " + text, "\n");
  }

  /** rules_info: sections and rules of each list. */
  datatype RulesInfo = RulesInfo(discordSections: nat, discordRules: nat, minecraftSections: nat, minecraftRules: nat)

  class RulesCog {
    var discordRules: seq<Section>
    const minecraftRules: seq<Section>
    /** RULES_CHANNEL_ID; 0 when unset. */
    const channelId: ChannelId

    constructor (channel: ChannelId)
      ensures discordRules == DiscordDefaults && minecraftRules == MinecraftDefaults && channelId == channel
    {
      discordRules := DiscordDefaults;
      minecraftRules := MinecraftDefaults;
      channelId := channel;
    }

    /** rules_edit: replace one rule in place and report the old one; an
        invalid position changes nothing. */
    method Edit(s: int, r: int, text: string) returns (replaced: Option<string>)
      modifies this
      ensures replaced.Some? <==> RuleExists(old(discordRules), s, r)
      ensures replaced.Some? ==>
        replaced.value == old(discordRules)[s].rules[r]
        && Some(discordRules) == EditRule(old(discordRules), s, r, text)
      ensures replaced.None? ==> discordRules == old(discordRules)
    {
      if 0 <= s < |discordRules| && 0 <= r < |discordRules[s].rules| {
        replaced := Some(discordRules[s].rules[r]);
        var section := discordRules[s];
        discordRules := discordRules[s := section.(rules := section.rules[r := text])];
      } else {
        replaced := None;
      }
    }

    /** rules_add: append a rule and report its position, counted from 1; an
        invalid section changes nothing. */
    method Add(s: int, text: string) returns (position: Option<nat>)
      modifies this
      ensures position.Some? <==> 0 <= s < |old(discordRules)|
      ensures position.Some? ==>
        position.value == |old(discordRules)[s].rules| + 1
        && Some(discordRules) == AddRule(old(discordRules), s, text)
        && position.value == |discordRules[s].rules|
      ensures position.None? ==> discordRules == old(discordRules)
    {
      if 0 <= s < |discordRules| {
        var section := discordRules[s];
        discordRules := discordRules[s := section.(rules := section.rules + [text])];
        position := Some(|discordRules[s].rules|);
      } else {
        position := None;
      }
    }

    /** rules_info. */
    function Info(): (i: RulesInfo)
      reads this
      ensures i.discordSections == |discordRules| && i.minecraftSections == |minecraftRules|
      ensures i.discordRules == TotalRules(discordRules) && i.minecraftRules == TotalRules(minecraftRules)
    {
      RulesInfo(|discordRules|, TotalRules(discordRules), |minecraftRules|, TotalRules(minecraftRules))
    }
  }
}
