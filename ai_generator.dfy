/** app/ai_generator.py: `generate_ai_document`, which picks one of two
    fixed paragraphs for a known topic, drops one interior sentence of it
    when it has more than three, and re-joins the rest. The random choices
    are parameters. */
module AiGenerator {
  import opened Strings

  /** The paragraphs available for each topic: the table that
      `generate_ai_document` reads, and the one `GenerateAiDocument` is meant
      to receive as its `templates` argument. The operations take the table
      as a parameter so that their contracts hold for any table. */
  const Templates: map<string, seq<string>> := map[
      "Artificial Intelligence" := [
        "Artificial Intelligence (AI) is a rapidly evolving field that focuses on creating systems capable of performing tasks that typically require human intelligence. Machine learning, a subset of AI, enables computers to learn from data without explicit programming. Deep learning, which uses neural networks with multiple layers, has revolutionized areas such as image recognition and natural language processing. The development of AI technologies continues to accelerate, with applications ranging from autonomous vehicles to medical diagnosis.",
        "The field of Artificial Intelligence encompasses various approaches to creating intelligent systems. These include rule-based systems, machine learning algorithms, and neural networks. Recent advances in deep learning have led to breakthroughs in computer vision, speech recognition, and natural language understanding. As AI technologies mature, they are being integrated into numerous industries, transforming how we work and live. Ethical considerations surrounding AI development and deployment remain important topics of discussion."],
      "Computer Systems" := [
        "Computer systems form the foundation of modern computing infrastructure. These systems include hardware components such as processors, memory, and storage devices, as well as software layers like operating systems and middleware. The design of efficient computer systems requires careful consideration of performance, power consumption, and reliability. Advances in computer architecture have led to the development of multi-core processors, specialized accelerators, and cloud computing platforms that enable scalable and flexible computing resources.",
        "Modern computer systems are characterized by their complexity and specialization. From mobile devices to supercomputers, these systems are designed to meet specific performance and efficiency requirements. The field of computer systems engineering involves the design, implementation, and evaluation of computing hardware and software. Key challenges include managing parallelism, optimizing energy efficiency, and ensuring security. As computing demands continue to grow, computer systems must evolve to provide greater performance and functionality."],
      "Networks" := [
        "Computer networks enable communication and resource sharing between computing devices. The Internet, a global network of networks, has transformed how we access information and communicate with others. Network protocols such as TCP/IP provide the foundation for data transmission across networks. The design of efficient and secure networks involves addressing challenges related to scalability, reliability, and performance. Emerging technologies like 5G and software-defined networking are shaping the future of network infrastructure.",
        "Networking technologies continue to evolve to meet the growing demands for connectivity and bandwidth. Local area networks (LANs), wide area networks (WANs), and wireless networks each serve different communication needs. Network security is a critical concern, with threats ranging from unauthorized access to malicious attacks. The development of network protocols and architectures must balance performance, security, and ease of management. As the Internet of Things expands, networks must accommodate an increasing number of connected devices."],
      "Software Engineering" := [
        "Software engineering is a discipline focused on the systematic design, development, and maintenance of software systems. It encompasses various methodologies, including waterfall, agile, and DevOps approaches. The software development lifecycle involves requirements analysis, design, implementation, testing, and deployment. Quality assurance and testing are essential components of software engineering, ensuring that software meets requirements and is free of defects. Effective software engineering practices improve productivity, quality, and maintainability.",
        "Modern software engineering emphasizes collaboration, automation, and continuous improvement. Agile methodologies promote iterative development and rapid response to changing requirements. DevOps practices integrate development and operations to streamline the software delivery process. Software architecture design addresses the structure and organization of software systems, impacting their scalability and maintainability. As software systems grow in complexity, software engineering must evolve to address new challenges in security, performance, and user experience."],
      "Theory of Computation" := [
        "The theory of computation explores the fundamental capabilities and limitations of computation. It includes the study of automata, formal languages, and computability. Automata theory examines abstract machines and the problems they can solve. Formal languages provide a framework for describing syntax and semantics. Computability theory addresses which problems can be solved algorithmically. Complexity theory classifies problems based on the computational resources required to solve them. These theoretical foundations underpin all of computer science.",
        "Computational theory provides the mathematical basis for understanding what can and cannot be computed. The Church-Turing thesis establishes the equivalence of various computational models. Complexity classes such as P and NP categorize problems based on their solvability. NP-complete problems represent a class of problems for which no efficient solution is known, yet their solutions can be verified efficiently. The study of algorithms and their complexity is central to computer science, enabling the development of efficient solutions to computational problems."],
      "Human-Computer Interaction" := [
        "Human-Computer Interaction (HCI) focuses on the design and evaluation of interactive computing systems for human use. It draws on knowledge from computer science, psychology, design, and other fields. User interface design considers how users interact with software and hardware systems. Usability engineering ensures that systems are efficient, effective, and satisfying to use. The field has evolved to include new interaction paradigms such as touch, gesture, and voice interfaces. As computing becomes more pervasive, HCI must address diverse user needs and contexts.",
        "The field of Human-Computer Interaction emphasizes user-centered design principles. Understanding user needs, capabilities, and limitations is essential for creating effective interfaces. Interaction design involves creating dialogues between users and systems that are intuitive and efficient. Evaluation methods such as usability testing and heuristic analysis help identify design improvements. Accessibility ensures that systems can be used by people with diverse abilities. Emerging areas in HCI include augmented reality, virtual reality, and brain-computer interfaces, each presenting unique design challenges and opportunities."]
  ]

  /** `'. '`, the separator the sentences are split on and re-joined with. */
  const SentenceSeparator: string := ". "

  /** The text around the topic name in the document for a topic without
      templates. */
  const DefaultLead: string := "This is a generated document about "
  const DefaultRest: string := ". It contains relevant information and follows the topic closely. The content is structured to provide a comprehensive overview of the subject matter, including key concepts and applications."

  /** The document for a topic without templates. */
  function DefaultDocument(topic: string): string
  {
    DefaultLead + topic + DefaultRest
  }

  /** The default document names its topic, right after the lead text. */
  lemma DefaultMentionsTopic(topic: string)
    ensures MatchAt(DefaultDocument(topic), topic, |DefaultLead|)
    ensures Contains(DefaultDocument(topic), topic)
  {
    var doc := DefaultDocument(topic);
    var n := |DefaultLead|;
    assert doc[n..n + |topic|] == topic;
    assert 0 <= n <= |doc| && MatchAt(doc, topic, n);
  }

  /** The sentences of the chosen paragraph. */
  function Sentences(templates: map<string, seq<string>>, topic: string, pick: nat): seq<string>
    requires topic in templates && pick < |templates[topic]|
  {
    Split(templates[topic][pick], SentenceSeparator)
  }

  /** What `random.choice` and `random.randint(1, len(sentences) - 2)`
      guarantee of the choices they return: the paragraph index is in range,
      and the index of the dropped sentence is an interior one. */
  predicate ValidChoices(templates: map<string, seq<string>>, topic: string, pick: nat, removeAt: nat)
  {
    topic in templates ==>
      && pick < |templates[topic]|
      && (|Sentences(templates, topic, pick)| > 3 ==> 1 <= removeAt <= |Sentences(templates, topic, pick)| - 2)
  }

  /** The sentences that survive: all of them when there are at most three,
      otherwise all but the one at `removeAt`. */
  function Kept(sentences: seq<string>, removeAt: nat): (r: seq<string>)
    requires |sentences| > 3 ==> 1 <= removeAt <= |sentences| - 2
    ensures |sentences| <= 3 ==> r == sentences
    ensures |sentences| > 3 ==> |r| == |sentences| - 1
    ensures |sentences| > 3 ==> r[0] == sentences[0] && r[|r| - 1] == sentences[|sentences| - 1]
    ensures |sentences| > 3 ==>
      forall i :: 0 <= i < |r| ==> r[i] == if i < removeAt then sentences[i] else sentences[i + 1]
    ensures forall s :: s in r ==> s in sentences
  {
    if |sentences| > 3 then sentences[..removeAt] + sentences[removeAt + 1..] else sentences
  }

  /** The document `generate_ai_document` returns for the given choices, with
      `templates` as its table. */
  function Document(templates: map<string, seq<string>>, topic: string, pick: nat, removeAt: nat): string
    requires ValidChoices(templates, topic, pick, removeAt)
  {
    if topic in templates then Join(Kept(Sentences(templates, topic, pick), removeAt), SentenceSeparator) + "."
    else DefaultDocument(topic)
  }

  /** `generate_ai_document(topic_name, length)` over the table `templates`
      (the source's own table is `Templates`); `length` is accepted and not
      used. */
  method GenerateAiDocument(templates: map<string, seq<string>>, topic: string, length: nat, pick: nat, removeAt: nat)
    returns (doc: string)
    requires ValidChoices(templates, topic, pick, removeAt)
    ensures doc == Document(templates, topic, pick, removeAt)
    ensures topic !in templates ==> doc == DefaultDocument(topic)
  {
    if topic in templates {
      var template := templates[topic][pick];
      var sentences := Split(template, SentenceSeparator);
      if |sentences| > 3 {
        sentences := sentences[..removeAt] + sentences[removeAt + 1..];
      }
      return Join(sentences, SentenceSeparator) + ".";
    }
    doc := DefaultDocument(topic);
  }

  /** A paragraph of at most three sentences comes back whole, with one
      extra '.'. */
  lemma ShortParagraphKeptWhole(templates: map<string, seq<string>>, topic: string, pick: nat, removeAt: nat)
    requires ValidChoices(templates, topic, pick, removeAt) && topic in templates
    requires |Sentences(templates, topic, pick)| <= 3
    ensures Document(templates, topic, pick, removeAt) == templates[topic][pick] + "."
  {
    JoinSplit(templates[topic][pick], SentenceSeparator);
  }

  /** A document from a template ends in '.', and without that '.' it splits
      on '. ' into exactly the surviving sentences. */
  lemma DocumentSplitsIntoKept(templates: map<string, seq<string>>, topic: string, pick: nat, removeAt: nat)
    requires ValidChoices(templates, topic, pick, removeAt) && topic in templates
    ensures var doc := Document(templates, topic, pick, removeAt);
      && |doc| >= 1 && doc[|doc| - 1] == '.'
      && Split(doc[..|doc| - 1], SentenceSeparator) == Kept(Sentences(templates, topic, pick), removeAt)
  {
    var sentences := Sentences(templates, topic, pick);
    var kept := Kept(sentences, removeAt);
    var body := Join(kept, SentenceSeparator);
    var doc := body + ".";
    SplitPiecesLackSeparator(templates[topic][pick], SentenceSeparator);
    assert Unbordered(SentenceSeparator) by {
      assert SentenceSeparator[1..][0] == ' ' && SentenceSeparator[..1][0] == '.';
    }
    SplitJoin(kept, SentenceSeparator);
    assert doc[..|doc| - 1] == body;
  }
}
