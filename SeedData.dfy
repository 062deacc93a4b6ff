/**
 * The seed list and the blocklist the server passes to the startup
 * reconciliation, and what the filter makes of them.
 */
module SeedData {
  import opened Basics
  import opened Seed

  // The entries of the demo seed list.
  const TheDarkKnight := SeedMovie("The Dark Knight", 2008, "Action", "Christopher Nolan",
    "Batman faces the Joker, a criminal mastermind who plunges Gotham into chaos.",
    "https://sm.ign.com/t/ign_latam/movie/t/the-dark-k/the-dark-knight_36qc.1200.jpg")
  const Inception := SeedMovie("Inception", 2010, "Sci-Fi", "Christopher Nolan",
    "A thief who steals corporate secrets through dream-sharing technology is tasked to plant an idea.",
    "https://m.media-amazon.com/images/I/51zUbui+gbL._AC_.jpg")
  const Interstellar := SeedMovie("Interstellar", 2014, "Sci-Fi", "Christopher Nolan",
    "Explorers travel through a wormhole to ensure humanity\U{2019}s survival.",
    "https://m.media-amazon.com/images/I/71yAz9T8ZyL._AC_SL1024_.jpg")
  const Shawshank := SeedMovie("The Shawshank Redemption", 1994, "Drama", "Frank Darabont",
    "Two imprisoned men bond over years, finding solace and redemption.",
    "https://m.media-amazon.com/images/I/519NBNHX5BL._AC_.jpg")
  const Godfather := SeedMovie("The Godfather", 1972, "Crime", "Francis Ford Coppola",
    "A crime dynasty\U{2019}s aging patriarch transfers control to his reluctant son.",
    "https://m.media-amazon.com/images/I/41+eK8zBwQL._AC_.jpg")
  const Parasite := SeedMovie("Parasite", 2019, "Thriller", "Bong Joon-ho",
    "Class tensions spiral between two families in a gripping thriller.",
    "https://m.media-amazon.com/images/I/71c05lTE03L._AC_SL1024_.jpg")
  const Gladiator := SeedMovie("Gladiator", 2000, "Action / Drama", "Ridley Scott",
    "A betrayed Roman general seeks vengeance as a gladiator.",
    "https://m.media-amazon.com/images/M/MV5BYWQ4YmNjYjEtOWE1Zi00Y2U4LWI4NTAtMTU0MjkxNWQ1ZmJiXkEyXkFqcGc@._V1_FMjpg_UX1000_.jpg")
  const InfinityWar := SeedMovie("Avengers: Infinity War", 2018, "Action / Sci-Fi", "Anthony & Joe Russo",
    "The Avengers battle Thanos to stop his universe-ending plan.",
    "https://images-na.ssl-images-amazon.com/images/I/A1aHRPvn5JL._RI_.jpg")
  const Joker := SeedMovie("Joker", 2019, "Drama / Thriller", "Todd Phillips",
    "Arthur Fleck\U{2019}s descent into madness births the Joker.",
    "https://i.pinimg.com/originals/95/2e/b0/952eb064b99360a16dc258d3186a7e7f.png")
  const Titanic := SeedMovie("Titanic", 1997, "Drama / Romance", "James Cameron",
    "A tragic romance aboard the ill-fated RMS Titanic.",
    "https://originalvintagemovieposters.com/wp-content/uploads/2020/02/TITANIC-8567-scaled.jpg")
  const Avatar := SeedMovie("Avatar", 2009, "Sci-Fi / Adventure", "James Cameron",
    "A Marine on Pandora is torn between duty and a new home.",
    "https://static1.srcdn.com/wordpress/wp-content/uploads/2023/05/avater-the-way-of-water-poster.jpg")
  const Prestige := SeedMovie("The Prestige", 2006, "Mystery / Drama", "Christopher Nolan",
    "Rival magicians engage in a dangerous battle of wits.",
    "https://c8.alamy.com/comp/DT67F9/hugh-jackman-scarlett-johansson-christian-bale-poster-the-prestige-DT67F9.jpg")
  const Endgame := SeedMovie("Avengers: Endgame", 2019, "Action / Sci-Fi", "Anthony & Joe Russo",
    "The Avengers assemble for a final stand against Thanos.",
    "https://m.media-amazon.com/images/I/81ExhpBEbHL._AC_SL1500_.jpg")
  const WolfOfWallStreet := SeedMovie("The Wolf of Wall Street", 2013, "Biography / Comedy", "Martin Scorsese",
    "Stockbroker Jordan Belfort rises and falls in excess.",
    "http://www.danielyeow.com/wp-content/uploads/TheWolfofWallStreet-poster.jpg")
  const DunePartTwo := SeedMovie("Dune: Part Two", 2024, "Sci-Fi / Adventure", "Denis Villeneuve",
    "Paul Atreides unites with the Fremen to wage war on Arrakis.",
    "https://m.media-amazon.com/images/I/81QYVQxH7lL._AC_SL1500_.jpg")
  const Oppenheimer := SeedMovie("Oppenheimer", 2023, "Biography / Drama", "Christopher Nolan",
    "The story of J. Robert Oppenheimer and the atomic bomb.",
    "https://images.wallpapersden.com/image/download/oppenheimer-2023-movie-poster_bmVpamqUmZqaraWkpJRmZ2dprWZnZ2k.jpg")

  // The demo seed list in four runs of four entries.
  const DemoPart0: seq<SeedMovie> := [TheDarkKnight, Inception, Interstellar, Shawshank]
  const DemoPart1: seq<SeedMovie> := [Godfather, Parasite, Gladiator, InfinityWar]
  const DemoPart2: seq<SeedMovie> := [Joker, Titanic, Avatar, Prestige]
  const DemoPart3: seq<SeedMovie> := [Endgame, WolfOfWallStreet, DunePartTwo, Oppenheimer]

  /** The demo seed list, in the order the upserts run. */
  const DemoSeeds: seq<SeedMovie> := DemoPart0 + (DemoPart1 + (DemoPart2 + DemoPart3))

  /** The lower-cased titles removed at every startup. */
  const BlockedTitles: set<string> := {
    "dune: part two", "joker", "interstellar", "inception", "the dark knight", "leo",
    "money heist", "stranger things", "breaking bad", "friends", "the crown", "the social network"
  }

  /** The filter on a list with one more entry in front. */
  lemma ActiveCons(x: SeedMovie, rest: seq<SeedMovie>, blocked: set<string>)
    ensures Active([x] + rest, blocked) == (if IsBlocked(x.title, blocked) then [] else [x]) + Active(rest, blocked)
  {
    assert ([x] + rest)[1..] == rest;
  }

  // Whether each entry is blocked: the lower-cased titles of the blocked
  // entries are on the blocklist, and every other lower-cased title differs
  // from each blocked title in length or in its first letter.

  lemma TheDarkKnightBlocked()
    ensures IsBlocked(TheDarkKnight.title, BlockedTitles)
  {
    assert Lower("The Dark Knight") == "the dark knight";
  }

  lemma InceptionBlocked()
    ensures IsBlocked(Inception.title, BlockedTitles)
  {
    assert Lower("Inception") == "inception";
  }

  lemma InterstellarBlocked()
    ensures IsBlocked(Interstellar.title, BlockedTitles)
  {
    assert Lower("Interstellar") == "interstellar";
  }

  lemma ShawshankKept()
    ensures !IsBlocked(Shawshank.title, BlockedTitles)
  {
  }

  lemma GodfatherKept()
    ensures !IsBlocked(Godfather.title, BlockedTitles)
  {
  }

  lemma ParasiteKept()
    ensures !IsBlocked(Parasite.title, BlockedTitles)
  {
  }

  lemma GladiatorKept()
    ensures !IsBlocked(Gladiator.title, BlockedTitles)
  {
    assert Lower("Gladiator")[0] == 'g';
  }

  lemma InfinityWarKept()
    ensures !IsBlocked(InfinityWar.title, BlockedTitles)
  {
  }

  lemma JokerBlocked()
    ensures IsBlocked(Joker.title, BlockedTitles)
  {
    assert Lower("Joker") == "joker";
  }

  lemma TitanicKept()
    ensures !IsBlocked(Titanic.title, BlockedTitles)
  {
    assert Lower("Titanic")[0] == 't';
  }

  lemma AvatarKept()
    ensures !IsBlocked(Avatar.title, BlockedTitles)
  {
  }

  lemma PrestigeKept()
    ensures !IsBlocked(Prestige.title, BlockedTitles)
  {
    assert Lower("The Prestige")[0] == 't';
  }

  lemma EndgameKept()
    ensures !IsBlocked(Endgame.title, BlockedTitles)
  {
  }

  lemma WolfOfWallStreetKept()
    ensures !IsBlocked(WolfOfWallStreet.title, BlockedTitles)
  {
  }

  lemma DunePartTwoBlocked()
    ensures IsBlocked(DunePartTwo.title, BlockedTitles)
  {
    assert Lower("Dune: Part Two") == "dune: part two";
  }

  lemma OppenheimerKept()
    ensures !IsBlocked(Oppenheimer.title, BlockedTitles)
  {
    assert Lower("Oppenheimer")[0] == 'o';
  }

  // The filter on each run of four entries.

  lemma DemoChunk0()
    ensures Active(DemoPart0, BlockedTitles) == [Shawshank]
  {
    TheDarkKnightBlocked();
    InceptionBlocked();
    InterstellarBlocked();
    ShawshankKept();
    ActiveCons(Shawshank, [], BlockedTitles);
    assert [Interstellar, Shawshank] == [Interstellar] + [Shawshank];
    ActiveCons(Interstellar, [Shawshank], BlockedTitles);
    assert [Inception, Interstellar, Shawshank] == [Inception] + [Interstellar, Shawshank];
    ActiveCons(Inception, [Interstellar, Shawshank], BlockedTitles);
    assert [TheDarkKnight, Inception, Interstellar, Shawshank] == [TheDarkKnight] + [Inception, Interstellar, Shawshank];
    ActiveCons(TheDarkKnight, [Inception, Interstellar, Shawshank], BlockedTitles);
  }

  lemma DemoChunk1()
    ensures Active(DemoPart1, BlockedTitles) == [Godfather, Parasite, Gladiator, InfinityWar]
  {
    GodfatherKept();
    ParasiteKept();
    GladiatorKept();
    InfinityWarKept();
    ActiveCons(InfinityWar, [], BlockedTitles);
    assert [Gladiator, InfinityWar] == [Gladiator] + [InfinityWar];
    ActiveCons(Gladiator, [InfinityWar], BlockedTitles);
    assert [Parasite, Gladiator, InfinityWar] == [Parasite] + [Gladiator, InfinityWar];
    ActiveCons(Parasite, [Gladiator, InfinityWar], BlockedTitles);
    assert [Godfather, Parasite, Gladiator, InfinityWar] == [Godfather] + [Parasite, Gladiator, InfinityWar];
    ActiveCons(Godfather, [Parasite, Gladiator, InfinityWar], BlockedTitles);
  }

  lemma DemoChunk2()
    ensures Active(DemoPart2, BlockedTitles) == [Titanic, Avatar, Prestige]
  {
    JokerBlocked();
    TitanicKept();
    AvatarKept();
    PrestigeKept();
    ActiveCons(Prestige, [], BlockedTitles);
    assert [Avatar, Prestige] == [Avatar] + [Prestige];
    ActiveCons(Avatar, [Prestige], BlockedTitles);
    assert [Titanic, Avatar, Prestige] == [Titanic] + [Avatar, Prestige];
    ActiveCons(Titanic, [Avatar, Prestige], BlockedTitles);
    assert [Joker, Titanic, Avatar, Prestige] == [Joker] + [Titanic, Avatar, Prestige];
    ActiveCons(Joker, [Titanic, Avatar, Prestige], BlockedTitles);
  }

  lemma DemoChunk3()
    ensures Active(DemoPart3, BlockedTitles) == [Endgame, WolfOfWallStreet, Oppenheimer]
  {
    EndgameKept();
    WolfOfWallStreetKept();
    DunePartTwoBlocked();
    OppenheimerKept();
    ActiveCons(Oppenheimer, [], BlockedTitles);
    assert [DunePartTwo, Oppenheimer] == [DunePartTwo] + [Oppenheimer];
    ActiveCons(DunePartTwo, [Oppenheimer], BlockedTitles);
    assert [WolfOfWallStreet, DunePartTwo, Oppenheimer] == [WolfOfWallStreet] + [DunePartTwo, Oppenheimer];
    ActiveCons(WolfOfWallStreet, [DunePartTwo, Oppenheimer], BlockedTitles);
    assert [Endgame, WolfOfWallStreet, DunePartTwo, Oppenheimer] == [Endgame] + [WolfOfWallStreet, DunePartTwo, Oppenheimer];
    ActiveCons(Endgame, [WolfOfWallStreet, DunePartTwo, Oppenheimer], BlockedTitles);
  }

  /**
   * Five of the sixteen seed entries are blocked (The Dark Knight,
   * Inception, Interstellar, Joker, Dune: Part Two), so every startup
   * upserts the remaining eleven, in seed-list order.
   */
  lemma DemoActive()
    ensures Active(DemoSeeds, BlockedTitles)
         == [Shawshank] + [Godfather, Parasite, Gladiator, InfinityWar]
          + [Titanic, Avatar, Prestige] + [Endgame, WolfOfWallStreet, Oppenheimer]
  {
    DemoChunk0();
    DemoChunk1();
    DemoChunk2();
    DemoChunk3();
    ActiveConcat(DemoPart2, DemoPart3, BlockedTitles);
    ActiveConcat(DemoPart1, DemoPart2 + DemoPart3, BlockedTitles);
    ActiveConcat(DemoPart0, DemoPart1 + (DemoPart2 + DemoPart3), BlockedTitles);
  }
}
