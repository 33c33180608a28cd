/**
 * The thirteen sample tools `MemStorage` inserts when it is constructed,
 * in listing order. Each `updatedAt` is "now minus so many days" as an ISO
 * string; the clock is outside the model, so `stamp(d)` stands for the
 * timestamp of `d` days ago. The texts are named constants so that
 * proofs about the other fields need not look inside them.
 */
module Seeds {
  import opened Wrappers
  import opened Schema

  /** The sample list of `initializeTools`, in listing order. */
  function SeedTools(stamp: nat -> string): seq<InsertTool>
  {
    [
      InsertTool(
        name := NeuralPainterName,
        description := NeuralPainterDescription,
        category := CategoryName(Image),
        imageUrl := NeuralPainterImageUrl,
        rating := 490,
        tags := NeuralPainterTags,
        features := NeuralPainterFeatures,
        useCases := NeuralPainterUseCases,
        isFeatured := true,
        isPopular := false,
        websiteUrl := Some(NeuralPainterWebsite),
        apiUrl := None,
        icon := NeuralPainterIcon,
        iconColor := NeuralPainterIconColor,
        updatedAt := stamp(2)),
      InsertTool(
        name := LinguaGeniusName,
        description := LinguaGeniusDescription,
        category := CategoryName(Text),
        imageUrl := LinguaGeniusImageUrl,
        rating := 480,
        tags := LinguaGeniusTags,
        features := LinguaGeniusFeatures,
        useCases := LinguaGeniusUseCases,
        isFeatured := true,
        isPopular := false,
        websiteUrl := Some(LinguaGeniusWebsite),
        apiUrl := None,
        icon := LinguaGeniusIcon,
        iconColor := LinguaGeniusIconColor,
        updatedAt := stamp(5)),
      InsertTool(
        name := SonicSynthName,
        description := SonicSynthDescription,
        category := CategoryName(Audio),
        imageUrl := SonicSynthImageUrl,
        rating := 470,
        tags := SonicSynthTags,
        features := SonicSynthFeatures,
        useCases := SonicSynthUseCases,
        isFeatured := true,
        isPopular := false,
        websiteUrl := Some(SonicSynthWebsite),
        apiUrl := None,
        icon := SonicSynthIcon,
        iconColor := SonicSynthIconColor,
        updatedAt := stamp(3)),
      InsertTool(
        name := CodeAssistName,
        description := CodeAssistDescription,
        category := CategoryName(Code),
        imageUrl := CodeAssistImageUrl,
        rating := 475,
        tags := CodeAssistTags,
        features := CodeAssistFeatures,
        useCases := CodeAssistUseCases,
        isFeatured := false,
        isPopular := true,
        websiteUrl := Some(CodeAssistWebsite),
        apiUrl := None,
        icon := CodeAssistIcon,
        iconColor := CodeAssistIconColor,
        updatedAt := stamp(1)),
      InsertTool(
        name := VideoGeniusName,
        description := VideoGeniusDescription,
        category := CategoryName(Video),
        imageUrl := VideoGeniusImageUrl,
        rating := 460,
        tags := VideoGeniusTags,
        features := VideoGeniusFeatures,
        useCases := VideoGeniusUseCases,
        isFeatured := false,
        isPopular := true,
        websiteUrl := Some(VideoGeniusWebsite),
        apiUrl := None,
        icon := VideoGeniusIcon,
        iconColor := VideoGeniusIconColor,
        updatedAt := stamp(4)),
      InsertTool(
        name := DataSenseName,
        description := DataSenseDescription,
        category := CategoryName(Data),
        imageUrl := DataSenseImageUrl,
        rating := 470,
        tags := DataSenseTags,
        features := DataSenseFeatures,
        useCases := DataSenseUseCases,
        isFeatured := false,
        isPopular := true,
        websiteUrl := Some(DataSenseWebsite),
        apiUrl := None,
        icon := DataSenseIcon,
        iconColor := DataSenseIconColor,
        updatedAt := stamp(7)),
      InsertTool(
        name := TranslateProName,
        description := TranslateProDescription,
        category := CategoryName(Text),
        imageUrl := TranslateProImageUrl,
        rating := 465,
        tags := TranslateProTags,
        features := TranslateProFeatures,
        useCases := TranslateProUseCases,
        isFeatured := false,
        isPopular := true,
        websiteUrl := Some(TranslateProWebsite),
        apiUrl := None,
        icon := TranslateProIcon,
        iconColor := TranslateProIconColor,
        updatedAt := stamp(10)),
      InsertTool(
        name := ChatGeniusName,
        description := ChatGeniusDescription,
        category := CategoryName(Text),
        imageUrl := ChatGeniusImageUrl,
        rating := 480,
        tags := ChatGeniusTags,
        features := ChatGeniusFeatures,
        useCases := ChatGeniusUseCases,
        isFeatured := false,
        isPopular := false,
        websiteUrl := Some(ChatGeniusWebsite),
        apiUrl := None,
        icon := ChatGeniusIcon,
        iconColor := ChatGeniusIconColor,
        updatedAt := stamp(2)),
      InsertTool(
        name := AudioCraftName,
        description := AudioCraftDescription,
        category := CategoryName(Audio),
        imageUrl := AudioCraftImageUrl,
        rating := 470,
        tags := AudioCraftTags,
        features := AudioCraftFeatures,
        useCases := AudioCraftUseCases,
        isFeatured := false,
        isPopular := false,
        websiteUrl := Some(AudioCraftWebsite),
        apiUrl := None,
        icon := AudioCraftIcon,
        iconColor := AudioCraftIconColor,
        updatedAt := stamp(7)),
      InsertTool(
        name := SketchMindName,
        description := SketchMindDescription,
        category := CategoryName(Image),
        imageUrl := SketchMindImageUrl,
        rating := 490,
        tags := SketchMindTags,
        features := SketchMindFeatures,
        useCases := SketchMindUseCases,
        isFeatured := false,
        isPopular := false,
        websiteUrl := Some(SketchMindWebsite),
        apiUrl := None,
        icon := SketchMindIcon,
        iconColor := SketchMindIconColor,
        updatedAt := stamp(3)),
      InsertTool(
        name := VideoMasterName,
        description := VideoMasterDescription,
        category := CategoryName(Video),
        imageUrl := VideoMasterImageUrl,
        rating := 460,
        tags := VideoMasterTags,
        features := VideoMasterFeatures,
        useCases := VideoMasterUseCases,
        isFeatured := false,
        isPopular := false,
        websiteUrl := Some(VideoMasterWebsite),
        apiUrl := None,
        icon := VideoMasterIcon,
        iconColor := VideoMasterIconColor,
        updatedAt := stamp(5)),
      InsertTool(
        name := DevGeniusName,
        description := DevGeniusDescription,
        category := CategoryName(Code),
        imageUrl := DevGeniusImageUrl,
        rating := 480,
        tags := DevGeniusTags,
        features := DevGeniusFeatures,
        useCases := DevGeniusUseCases,
        isFeatured := false,
        isPopular := false,
        websiteUrl := Some(DevGeniusWebsite),
        apiUrl := None,
        icon := DevGeniusIcon,
        iconColor := DevGeniusIconColor,
        updatedAt := stamp(1)),
      InsertTool(
        name := AIAnalystName,
        description := AIAnalystDescription,
        category := CategoryName(Data),
        imageUrl := AIAnalystImageUrl,
        rating := 470,
        tags := AIAnalystTags,
        features := AIAnalystFeatures,
        useCases := AIAnalystUseCases,
        isFeatured := false,
        isPopular := false,
        websiteUrl := Some(AIAnalystWebsite),
        apiUrl := None,
        icon := AIAnalystIcon,
        iconColor := AIAnalystIconColor,
        updatedAt := stamp(7))
    ]
  }

  const NeuralPainterName: string := "NeuralPainter"

  const NeuralPainterDescription: string :=
    "Advanced image generation AI capable of creating photorealistic images from text descriptions with exceptional detail."

  const NeuralPainterTags: seq<string> := ["image generation", "photorealistic", "text-to-image"]

  const NeuralPainterWebsite: string := "https://neuralpainter.ai"

  const NeuralPainterIcon: string := "paint-brush"

  const NeuralPainterIconColor: string := "purple"

  const NeuralPainterImageUrl: string :=
    "https://images.unsplash.com/photo-1620712943543-bcc4688e7485?ixlib=rb-4.0.3&auto=format&fit=crop&w=600&h=300&q=80"

  const NeuralPainterFeatures: seq<string> := [
    "Photorealistic image generation from text prompts",
    "Style transfer capabilities with over 50 artistic styles",
    "Image editing and enhancement tools",
    "Batch processing for multiple images",
    "API access for integration with other applications"
  ]

  const NeuralPainterUseCases: seq<UseCase> := [
    UseCase("Art & Design", "Create concept art, illustrations, and design assets quickly.", "palette", "primary"),
    UseCase("Marketing", "Generate unique visuals for campaigns and social media.", "ad", "secondary"),
    UseCase("Game Development", "Quickly prototype environments, characters, and assets.", "gamepad", "accent")
  ]

  const LinguaGeniusName: string := "LinguaGenius"

  const LinguaGeniusDescription: string :=
    "State-of-the-art language model that can write essays, stories, code, and more with human-like understanding."

  const LinguaGeniusTags: seq<string> := ["text generation", "language model", "writing assistant"]

  const LinguaGeniusWebsite: string := "https://linguagenius.ai"

  const LinguaGeniusIcon: string := "brain"

  const LinguaGeniusIconColor: string := "blue"

  const LinguaGeniusImageUrl: string :=
    "https://images.unsplash.com/photo-1655720837653-b49ce1e24169?ixlib=rb-4.0.3&auto=format&fit=crop&w=600&h=300&q=80"

  const LinguaGeniusFeatures: seq<string> := [
    "Human-like text generation for essays, stories, and more",
    "Code generation and explanation across multiple languages",
    "Context-aware responses and continuations",
    "Multilingual support for over 50 languages",
    "Customizable tone and style settings"
  ]

  const LinguaGeniusUseCases: seq<UseCase> := [
    UseCase("Content Creation", "Generate articles, stories, and marketing copy.", "file-alt", "primary"),
    UseCase("Education", "Create learning materials and explanations.", "graduation-cap", "secondary"),
    UseCase("Programming", "Get help with coding tasks and debugging.", "code", "accent")
  ]

  const SonicSynthName: string := "SonicSynth"

  const SonicSynthDescription: string :=
    "Voice cloning and audio generation tool that creates natural-sounding speech and can mimic any voice with just seconds of sample audio."

  const SonicSynthTags: seq<string> := ["audio generation", "voice cloning", "text-to-speech"]

  const SonicSynthWebsite: string := "https://sonicsynth.ai"

  const SonicSynthIcon: string := "music"

  const SonicSynthIconColor: string := "green"

  const SonicSynthImageUrl: string :=
    "https://images.unsplash.com/photo-1563089145-599997674d42?ixlib=rb-4.0.3&auto=format&fit=crop&w=600&h=300&q=80"

  const SonicSynthFeatures: seq<string> := [
    "Voice cloning with minimal sample audio",
    "Natural-sounding text-to-speech conversion",
    "Emotional tone and inflection control",
    "Background music and sound effect generation",
    "Real-time voice transformation"
  ]

  const SonicSynthUseCases: seq<UseCase> := [
    UseCase("Content Creation", "Create voiceovers for videos and podcasts.", "microphone", "primary"),
    UseCase("Accessibility", "Generate audio versions of written content.", "universal-access", "secondary"),
    UseCase("Entertainment", "Produce custom audio for games and apps.", "headphones", "accent")
  ]

  const CodeAssistName: string := "CodeAssist"

  const CodeAssistDescription: string :=
    "AI that writes, explains, and optimizes code across 20+ programming languages."

  const CodeAssistTags: seq<string> := ["code generation", "programming", "developer tools"]

  const CodeAssistWebsite: string := "https://codeassist.dev"

  const CodeAssistIcon: string := "code"

  const CodeAssistIconColor: string := "blue"

  const CodeAssistImageUrl: string :=
    "https://images.unsplash.com/photo-1555066931-4365d14bab8c?ixlib=rb-4.0.3&auto=format&fit=crop&w=600&h=300&q=80"

  const CodeAssistFeatures: seq<string> := [
    "Code generation from natural language descriptions",
    "Bug detection and fixing",
    "Code explanation and documentation",
    "Support for 20+ programming languages",
    "Integration with popular IDEs"
  ]

  const CodeAssistUseCases: seq<UseCase> := [
    UseCase("Software Development", "Accelerate coding with AI assistance.", "code", "primary"),
    UseCase("Learning", "Understand complex code through explanations.", "graduation-cap", "secondary"),
    UseCase("Optimization", "Improve code performance and readability.", "tachometer-alt", "accent")
  ]

  const VideoGeniusName: string := "VideoGenius"

  const VideoGeniusDescription: string :=
    "Create professional videos from text prompts, including animation and special effects."

  const VideoGeniusTags: seq<string> := ["video generation", "animation", "special effects"]

  const VideoGeniusWebsite: string := "https://videogenius.ai"

  const VideoGeniusIcon: string := "video"

  const VideoGeniusIconColor: string := "purple"

  const VideoGeniusImageUrl: string :=
    "https://images.unsplash.com/photo-1626379953822-baec19c3accd?ixlib=rb-4.0.3&auto=format&fit=crop&w=600&h=300&q=80"

  const VideoGeniusFeatures: seq<string> := [
    "Text-to-video generation",
    "Animated character creation",
    "Special effects and transitions",
    "Custom scene composition",
    "Video editing and enhancement"
  ]

  const VideoGeniusUseCases: seq<UseCase> := [
    UseCase("Marketing", "Create engaging ads and promotional content.", "ad", "primary"),
    UseCase("Education", "Produce educational videos and tutorials.", "chalkboard-teacher", "secondary"),
    UseCase("Entertainment", "Generate animated stories and content.", "film", "accent")
  ]

  const DataSenseName: string := "DataSense"

  const DataSenseDescription: string :=
    "Automated data analysis and visualization tool powered by machine learning."

  const DataSenseTags: seq<string> := ["data analysis", "visualization", "business intelligence"]

  const DataSenseWebsite: string := "https://datasense.ai"

  const DataSenseIcon: string := "chart-line"

  const DataSenseIconColor: string := "green"

  const DataSenseImageUrl: string :=
    "https://images.unsplash.com/photo-1551288049-bebda4e38f71?ixlib=rb-4.0.3&auto=format&fit=crop&w=600&h=300&q=80"

  const DataSenseFeatures: seq<string> := [
    "Automated pattern detection in data",
    "Interactive visualization generation",
    "Predictive analytics and forecasting",
    "Natural language querying for data",
    "Automated report generation"
  ]

  const DataSenseUseCases: seq<UseCase> := [
    UseCase("Business Analytics", "Extract actionable insights from business data.", "chart-line", "primary"),
    UseCase("Research", "Analyze and visualize research findings.", "flask", "secondary"),
    UseCase("Finance", "Model and predict financial trends.", "dollar-sign", "accent")
  ]

  const TranslateProName: string := "TranslatePro"

  const TranslateProDescription: string :=
    "Advanced neural translation system supporting over 100 languages with context awareness."

  const TranslateProTags: seq<string> := ["translation", "language", "localization"]

  const TranslateProWebsite: string := "https://translatepro.ai"

  const TranslateProIcon: string := "language"

  const TranslateProIconColor: string := "yellow"

  const TranslateProImageUrl: string :=
    "https://images.unsplash.com/photo-1508780709619-79562169bc64?ixlib=rb-4.0.3&auto=format&fit=crop&w=600&h=300&q=80"

  const TranslateProFeatures: seq<string> := [
    "Neural machine translation for 100+ languages",
    "Context-aware translation for improved accuracy",
    "Dialect and slang understanding",
    "Technical and specialized terminology support",
    "Real-time document translation"
  ]

  const TranslateProUseCases: seq<UseCase> := [
    UseCase("Business", "Localize content for global markets.", "globe", "primary"),
    UseCase("Travel", "Overcome language barriers while traveling.", "plane", "secondary"),
    UseCase("Education", "Access educational content in any language.", "book", "accent")
  ]

  const ChatGeniusName: string := "ChatGenius"

  const ChatGeniusDescription: string :=
    "Advanced conversational AI that can handle complex dialogues, answer questions, provide recommendations, and more."

  const ChatGeniusTags: seq<string> := ["conversation", "customer support", "chatbot"]

  const ChatGeniusWebsite: string := "https://chatgenius.ai"

  const ChatGeniusIcon: string := "comments"

  const ChatGeniusIconColor: string := "blue"

  const ChatGeniusImageUrl: string :=
    "https://images.unsplash.com/photo-1531746790731-6c087fecd65a?ixlib=rb-4.0.3&auto=format&fit=crop&w=600&h=300&q=80"

  const ChatGeniusFeatures: seq<string> := [
    "Human-like conversational abilities",
    "Knowledge base integration",
    "Multi-turn dialogue management",
    "Personality customization",
    "Sentiment analysis and emotional intelligence"
  ]

  const ChatGeniusUseCases: seq<UseCase> := [
    UseCase("Customer Support", "Provide 24/7 assistance to customers.", "headset", "primary"),
    UseCase("Virtual Assistant", "Create personal AI assistants with personality.", "robot", "secondary"),
    UseCase("Education", "Build interactive tutoring and learning companions.", "graduation-cap", "accent")
  ]

  const AudioCraftName: string := "AudioCraft"

  const AudioCraftDescription: string :=
    "Create custom music, sound effects, and ambient audio using text prompts. Perfect for creators and developers."

  const AudioCraftTags: seq<string> := ["audio generation", "music", "sound effects"]

  const AudioCraftWebsite: string := "https://audiocraft.ai"

  const AudioCraftIcon: string := "music"

  const AudioCraftIconColor: string := "green"

  const AudioCraftImageUrl: string :=
    "https://images.unsplash.com/photo-1516280440614-37939bbacd81?ixlib=rb-4.0.3&auto=format&fit=crop&w=600&h=300&q=80"

  const AudioCraftFeatures: seq<string> := [
    "Text-to-music generation",
    "Custom sound effect creation",
    "Ambient soundscape design",
    "Audio style transfer",
    "Loop creation and mixing"
  ]

  const AudioCraftUseCases: seq<UseCase> := [
    UseCase("Music Production", "Generate musical elements and ideas.", "music", "primary"),
    UseCase("Game Development", "Create audio assets for games and apps.", "gamepad", "secondary"),
    UseCase("Content Creation", "Add custom audio to videos and podcasts.", "podcast", "accent")
  ]

  const SketchMindName: string := "SketchMind"

  const SketchMindDescription: string :=
    "Turn rough sketches into polished, professional artwork with AI enhancement and style transfer capabilities."

  const SketchMindTags: seq<string> := ["sketch enhancement", "illustration", "style transfer"]

  const SketchMindWebsite: string := "https://sketchmind.art"

  const SketchMindIcon: string := "pencil-alt"

  const SketchMindIconColor: string := "purple"

  const SketchMindImageUrl: string :=
    "https://images.unsplash.com/photo-1457305237443-44c3d5a30b89?ixlib=rb-4.0.3&auto=format&fit=crop&w=600&h=300&q=80"

  const SketchMindFeatures: seq<string> := [
    "Sketch-to-image conversion",
    "Multiple artistic style transfers",
    "Resolution enhancement",
    "Digital painting automation",
    "Drawing assistance and guidance"
  ]

  const SketchMindUseCases: seq<UseCase> := [
    UseCase("Illustration", "Transform rough concepts into finished artwork.", "pencil-alt", "primary"),
    UseCase("UI/UX Design", "Convert wireframes into polished mockups.", "desktop", "secondary"),
    UseCase("Education", "Teach art techniques through AI demonstration.", "paintbrush", "accent")
  ]

  const VideoMasterName: string := "VideoMaster"

  const VideoMasterDescription: string :=
    "Automated video editing, enhancement, and generation based on text input. Create professional videos in minutes."

  const VideoMasterTags: seq<string> := ["video editing", "enhancement", "auto-captioning"]

  const VideoMasterWebsite: string := "https://videomaster.pro"

  const VideoMasterIcon: string := "film"

  const VideoMasterIconColor: string := "red"

  const VideoMasterImageUrl: string :=
    "https://images.unsplash.com/photo-1536240478700-b869070f9279?ixlib=rb-4.0.3&auto=format&fit=crop&w=600&h=300&q=80"

  const VideoMasterFeatures: seq<string> := [
    "Automated video editing from raw footage",
    "Color grading and enhancement",
    "Audio cleaning and normalization",
    "Auto-captioning and subtitling",
    "Content-aware editing decisions"
  ]

  const VideoMasterUseCases: seq<UseCase> := [
    UseCase("Content Creation", "Streamline video production workflow.", "video", "primary"),
    UseCase("Marketing", "Create professional marketing videos quickly.", "ad", "secondary"),
    UseCase("Social Media", "Generate platform-optimized video content.", "share", "accent")
  ]

  const DevGeniusName: string := "DevGenius"

  const DevGeniusDescription: string :=
    "AI-powered coding assistant that generates code, fixes bugs, and provides explanations across multiple programming languages."

  const DevGeniusTags: seq<string> := ["code generation", "debugging", "documentation"]

  const DevGeniusWebsite: string := "https://devgenius.dev"

  const DevGeniusIcon: string := "code-branch"

  const DevGeniusIconColor: string := "yellow"

  const DevGeniusImageUrl: string :=
    "https://images.unsplash.com/photo-1542831371-29b0f74f9713?ixlib=rb-4.0.3&auto=format&fit=crop&w=600&h=300&q=80"

  const DevGeniusFeatures: seq<string> := [
    "Code generation from natural language",
    "Bug detection and fixing",
    "Code explanation and documentation",
    "Refactoring suggestions",
    "Performance optimization"
  ]

  const DevGeniusUseCases: seq<UseCase> := [
    UseCase("Software Development", "Speed up development with AI assistance.", "code", "primary"),
    UseCase("Education", "Learn programming with interactive guidance.", "graduation-cap", "secondary"),
    UseCase("Code Maintenance", "Keep codebases clean and optimized.", "tools", "accent")
  ]

  const AIAnalystName: string := "AIAnalyst"

  const AIAnalystDescription: string :=
    "Intelligent data analysis platform that extracts insights, creates visualizations, and generates reports from your data."

  const AIAnalystTags: seq<string> := ["data analysis", "visualization", "reporting"]

  const AIAnalystWebsite: string := "https://aianalyst.tech"

  const AIAnalystIcon: string := "robot"

  const AIAnalystIconColor: string := "teal"

  const AIAnalystImageUrl: string :=
    "https://images.unsplash.com/photo-1543286386-713bdd548da4?ixlib=rb-4.0.3&auto=format&fit=crop&w=600&h=300&q=80"

  const AIAnalystFeatures: seq<string> := [
    "Automated insight extraction",
    "Dynamic visualization generation",
    "Natural language data querying",
    "Pattern recognition and anomaly detection",
    "Automated report compilation"
  ]

  const AIAnalystUseCases: seq<UseCase> := [
    UseCase("Business Intelligence", "Transform raw data into actionable insights.", "chart-pie", "primary"),
    UseCase("Research", "Analyze complex datasets efficiently.", "flask", "secondary"),
    UseCase("Marketing", "Track and optimize campaign performance.", "bullhorn", "accent")
  ]

  /** The category member of each sample record, in listing order. */
  const SeedCategories: seq<Category> :=
    [Image, Text, Audio, Code, Video, Data, Text, Text, Audio, Image, Video, Code, Data]

  /** Each sample record is filed under its member's string, never under the wildcard. */
  lemma SeedCategoriesListed(stamp: nat -> string)
    ensures |SeedTools(stamp)| == |SeedCategories| == 13
    ensures forall i :: 0 <= i < 13 ==>
      SeedTools(stamp)[i].category == CategoryName(SeedCategories[i]) && SeedCategories[i] != All
  {
    var s := SeedTools(stamp);
    forall i | 0 <= i < 13
      ensures s[i].category == CategoryName(SeedCategories[i]) && SeedCategories[i] != All
    {
    }
  }

  /**
   * Facts about the sample list: thirteen records, every rating on the
   * documented scale, every category a real one (never the wildcard), the
   * first three featured and the next four popular.
   */
  lemma SeedFacts(stamp: nat -> string)
    ensures |SeedTools(stamp)| == 13
    ensures forall i :: 0 <= i < 13 ==> RatingOnScale(SeedTools(stamp)[i].rating)
    ensures forall i :: 0 <= i < 13 ==>
      exists c :: c != All && SeedTools(stamp)[i].category == CategoryName(c)
    ensures forall i :: 0 <= i < 13 ==> (SeedTools(stamp)[i].isFeatured <==> i < 3)
    ensures forall i :: 0 <= i < 13 ==> (SeedTools(stamp)[i].isPopular <==> 3 <= i < 7)
  {
    SeedCategoriesListed(stamp);
    forall i | 0 <= i < 13
      ensures exists c :: c != All && SeedTools(stamp)[i].category == CategoryName(c)
    {
      var c := SeedCategories[i];
      assert c != All && SeedTools(stamp)[i].category == CategoryName(c);
    }
  }
}
