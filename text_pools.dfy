/** The three text pools the typing game draws its targets from, and the
    game modes that select them (TypingGame.tsx, lines 10-57). */
module TextPools {

  /** The game mode: one word, one sentence or one paragraph at a time. */
  datatype Mode = Words | Sentences | Paragraphs

  /** The word list of words mode. */
  const WordList: seq<string> := [
    "the", "be", "to", "of", "and", "a", "in", "that", "have", "I",
    "it", "for", "not", "on", "with", "he", "as", "you", "do", "at",
    "this", "but", "his", "by", "from", "they", "we", "say", "her", "she",
    "or", "an", "will", "my", "one", "all", "would", "there", "their", "what",
    "so", "up", "out", "if", "about", "who", "get", "which", "go", "me"
  ]

  /** The sentences of sentences mode. */
  const SentenceList: seq<string> := [
    "The quick brown fox jumps over the lazy dog.",
    "All that glitters is not gold.",
    "Actions speak louder than words.",
    "A journey of a thousand miles begins with a single step.",
    "Don't count your chickens before they hatch.",
    "The early bird catches the worm.",
    "Practice makes perfect.",
    "Where there's a will, there's a way.",
    "You can't judge a book by its cover.",
    "Better late than never.",
    "Two wrongs don't make a right.",
    "The pen is mightier than the sword.",
    "When in Rome, do as the Romans do.",
    "The grass is always greener on the other side.",
    "Fortune favors the bold.",
    "People who live in glass houses should not throw stones.",
    "Hope for the best, prepare for the worst.",
    "Birds of a feather flock together.",
    "Keep your friends close and your enemies closer.",
    "A picture is worth a thousand words."
  ]

  /** The paragraphs of paragraphs mode. */
  const ParagraphList: seq<string> := [
    "The sun was setting behind the mountains, casting long shadows across the valley. A gentle breeze rustled the leaves of the trees, creating a soothing melody. In the distance, a bird called out to its mate, its song echoing through the quiet evening air. It was a perfect moment of peace and tranquility.",
    "The old bookstore on the corner was a treasure trove of forgotten stories. Dusty shelves lined the walls, filled with volumes of all sizes and colors. The scent of aged paper and leather bindings filled the air, creating an atmosphere of mystery and adventure. Each book held a world waiting to be discovered.",
    "The city came alive at night, with bright lights illuminating the streets and buildings. People hurried along the sidewalks, some heading home after a long day, others just beginning their evening adventures. Street vendors called out to passersby, offering everything from hot food to handmade crafts. The energy was electric and contagious.",
    "The small café was tucked away on a side street, easy to miss if you weren't looking for it. Inside, the aroma of freshly ground coffee beans and baked goods welcomed visitors. Soft music played in the background, complementing the murmur of conversations. It was a perfect spot to escape the hustle and bustle of daily life.",
    "The garden was a riot of colors and scents, with flowers of every hue blooming in carefully tended beds. Butterflies fluttered from blossom to blossom, while bees buzzed busily collecting nectar. A stone path wound through the garden, leading to a small pond where water lilies floated on the surface. It was a haven of natural beauty."
  ]

  /** The pool a mode draws from. */
  function Pool(mode: Mode): seq<string>
  {
    match mode
    case Words => WordList
    case Sentences => SentenceList
    case Paragraphs => ParagraphList
  }

  /** Every pool holds at least one text (50 words, 20 sentences, 5
      paragraphs), so a random draw always has something to pick. */
  lemma PoolSizes()
    ensures |Pool(Words)| == 50 && |Pool(Sentences)| == 20 && |Pool(Paragraphs)| == 5
  {
  }

  /** Every sentence and every paragraph is non-empty, so the text a
      sentences or paragraphs round is scored against never has length 0. */
  lemma PoolTextNonEmpty(mode: Mode, i: nat)
    requires mode != Words && i < |Pool(mode)|
    ensures |Pool(mode)[i]| > 0
  {
    match mode
    case Sentences => SentenceListNonEmpty(SentenceList[i]);
    case Paragraphs => ParagraphListNonEmpty(i);
  }

  lemma SentenceListNonEmpty(t: string)
    requires t in SentenceList
    ensures |t| > 0
  {
  }

  lemma ParagraphListNonEmpty(i: nat)
    requires i < |ParagraphList|
    ensures |ParagraphList[i]| > 0
  {
    if i == 0 {
    } else if i == 1 {
    } else if i == 2 {
    } else if i == 3 {
    }
  }
}
