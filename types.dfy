/** The records the application persists and the tool catalogue entries. */
module Types {

  datatype BusinessContext = BusinessContext(
    id: string,
    name: string,
    niche: string,
    targetAudience: string,
    coreOfferIdea: string,
    pricePointTarget: string,
    currentStruggle: string)

  datatype ToolCategory = Foundation | Week1 | Week2 | Week3 | Week4 | Bonus {
    /** The enum's string value, which is also the heading the dashboard shows. */
    function Label(): string {
      match this
      case Foundation => "Foundation & Mindset"
      case Week1 => "Week 1: Value & Assets"
      case Week2 => "Week 2: Mega-Value Marketing"
      case Week3 => "Week 3: Sales & Pricing"
      case Week4 => "Week 4: Contracts & Systems"
      case Bonus => "Bonus & Resources"
    }
  }

  /** A catalogue entry. The prompt template is a function of the business context in
      the source; the model receives its result where it is used. An absent `isVoice`
      is `false`. */
  datatype ToolDef = ToolDef(
    id: string,
    name: string,
    description: string,
    category: ToolCategory,
    icon: string,
    systemInstruction: string,
    isVoice: bool)

  datatype GeneratedResult = GeneratedResult(
    id: string,
    toolId: string,
    timestamp: int,
    content: string)
}
