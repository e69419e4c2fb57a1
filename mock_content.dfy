/** The canned generation that stands in for the AI service on both create
    screens: four fixed post bodies keyed by content type, and two sets of four
    hook templates into which the topic is interpolated. */
module MockContent {
  import opened Common

  /** The content types that have a canned body. */
  const KnownTypes: seq<string> := ["engagement", "educational", "lead-magnet", "company-update"]

  /** `mockContent[type] || ''`: the fixed body of a known type, "" otherwise. */
  function MockBody(contentType: string): (r: string)
    ensures r != "" <==> contentType in KnownTypes
  {
    match contentType
    case "engagement" => EngagementBody
    case "educational" => EducationalBody
    case "lead-magnet" => LeadMagnetBody
    case "company-update" => CompanyUpdateBody
    case _ => ""
  }

  const EngagementBody: string :=
    @"🚀 Just had an incredible conversation with a potential client who said something that stopped me in my tracks...

""We've been trying to solve this problem for 3 years, and in 30 minutes you've given us a completely new perspective.""

This reminded me why I love what we do at our company. It's not just about the solution – it's about seeing the problem differently.

What's the most surprising insight you've gained from a client conversation? 👇

#BusinessStrategy #ClientSuccess #Innovation"

  const EducationalBody: string :=
    @"📊 The biggest mistake I see companies make with LinkedIn? Treating it like Facebook.

Here's what works instead:

✅ Share industry insights, not personal updates
✅ Start conversations, don't just broadcast  
✅ Comment meaningfully on others' posts
✅ Use data to back up your points
✅ Ask questions that matter to your audience

LinkedIn rewards authentic professional engagement. The algorithm can tell the difference.

Which of these do you struggle with most? Let's discuss below 👇

#LinkedInStrategy #B2BMarketing #ProfessionalNetworking"

  const LeadMagnetBody: string :=
    @"🎯 Want to know the exact framework we use to generate 10x more qualified leads?

I just published our complete ""Lead Generation Blueprint"" that includes:

→ The 5-step qualification process
→ Email templates that convert at 23%
→ Follow-up sequences that close deals
→ Real examples from our clients

This is the same system that helped our clients generate over $2M in new revenue last quarter.

Drop a comment with ""BLUEPRINT"" and I'll send you the free guide 👇

#LeadGeneration #SalesStrategy #B2BMarketing"

  const CompanyUpdateBody: string :=
    @"🎉 Exciting news! We just hit a major milestone at ContentGen...

We've now helped over 10,000 professionals create viral LinkedIn content, generating over 2 million posts and driving incredible engagement for our community.

But here's what makes me most proud: The success stories.

Like Sarah, who went from 200 to 5,000 followers in 6 months.
Or Mike, who landed 3 new clients just from his LinkedIn content.
Or the team at TechCorp who increased their lead generation by 400%.

This is just the beginning. Thank you to our amazing community for trusting us with your LinkedIn growth! 🙏

#Milestone #Community #ContentGeneration #LinkedIn"

  /** The four hooks of a fresh generation, each naming the topic. */
  function FirstHooks(topic: string): (r: seq<string>)
    ensures |r| == 4
  {
    [
      @"🚀 Just discovered something that completely changed my perspective on " + topic + @"...",
      @"💡 Here's an uncomfortable truth about " + topic + @" that nobody talks about...",
      @"📊 After analyzing 1000+ cases, I found the #1 mistake people make with " + topic + @"...",
      @"🎯 Want to know the secret that top performers use for " + topic + @"?"
    ]
  }

  /** Every hook of a fresh generation names the topic. */
  lemma FirstHooksNameTopic(topic: string)
    ensures forall i :: 0 <= i < 4 ==> Contains(FirstHooks(topic)[i], topic)
  {
    ContainsInfix(@"🚀 Just discovered something that completely changed my perspective on ", topic, @"...");
    ContainsInfix(@"💡 Here's an uncomfortable truth about ", topic, @" that nobody talks about...");
    ContainsInfix(@"📊 After analyzing 1000+ cases, I found the #1 mistake people make with ", topic, @"...");
    ContainsInfix(@"🎯 Want to know the secret that top performers use for ", topic, @"?");
  }

  /** The four hooks of a text regeneration, each naming the topic. */
  function RegeneratedHooks(topic: string): (r: seq<string>)
    ensures |r| == 4
  {
    [
      @"🌟 This " + topic + @" insight just blew my mind...",
      @"⚡ Stop doing " + topic + @" the hard way. Here's what actually works...",
      @"🔥 The " + topic + @" strategy that tripled our results...",
      @"💬 Real talk: What everyone gets wrong about " + topic + @"..."
    ]
  }

  /** Every hook of a text regeneration names the topic. */
  lemma RegeneratedHooksNameTopic(topic: string)
    ensures forall i :: 0 <= i < 4 ==> Contains(RegeneratedHooks(topic)[i], topic)
  {
    ContainsInfix(@"🌟 This ", topic, @" insight just blew my mind...");
    ContainsInfix(@"⚡ Stop doing ", topic, @" the hard way. Here's what actually works...");
    ContainsInfix(@"🔥 The ", topic, @" strategy that tripled our results...");
    ContainsInfix(@"💬 Real talk: What everyone gets wrong about ", topic, @"...");
  }
}
