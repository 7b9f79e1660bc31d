/**
 * The shapes the garden works with: memories, plants and weather samples.
 * Only the fields some operation of the model reads or writes are kept.
 */
module Types {

  datatype Option<T> = None | Some(value: T)

  /** The six emotions a memory can be planted with. */
  datatype Emotion = Joy | Peaceful | Adventurous | Nostalgic | Romantic | Energetic
  {
    /** The string the emotion is stored and compared as. */
    function Name(): string {
      match this
      case Joy => "joy"
      case Peaceful => "peaceful"
      case Adventurous => "adventurous"
      case Nostalgic => "nostalgic"
      case Romantic => "romantic"
      case Energetic => "energetic"
    }
  }

  /** A value Math.random can return. */
  predicate IsDraw(r: real) {
    0.0 <= r < 1.0
  }

  datatype Season = Spring | Summer | Fall | Winter

  datatype Rarity = Common | Uncommon | Rare | Legendary

  /** How strongly each weather field helps a plant grow; every weight is in [0, 1]. */
  datatype GrowthFactors = GrowthFactors(
    temperature: real,
    humidity: real,
    sunlight: real,
    windSpeed: real,
    precipitation: real)

  /** A catalog plant: its display name, one glyph per growth stage, its growth factors and rarity. */
  datatype Plant = Plant(
    typeName: string,
    stages: seq<string>,
    growthFactors: GrowthFactors,
    rarity: Rarity)

  /** One weather sample; the numbers idealise JavaScript doubles as reals. */
  datatype WeatherData = WeatherData(
    temperature: real,
    humidity: real,
    sunlight: real,
    windSpeed: real,
    precipitation: real,
    season: Season)

  /** The user-entered part of a memory, as the form submits it. */
  datatype MemoryInput = MemoryInput(
    title: string,
    description: string,
    location: string,
    date: string,
    emotion: Emotion,
    tags: seq<string>,
    companions: seq<string>,
    mood: int,
    isPublic: bool,
    season: Season)

  /** A stored memory: the user's input plus the fields the garden assigns and maintains. */
  datatype Memory = Memory(
    input: MemoryInput,
    id: string,
    plantType: string,
    growthStage: int,
    likes: int,
    weatherData: Option<WeatherData>,
    createdAt: string,
    updatedAt: string)
}
