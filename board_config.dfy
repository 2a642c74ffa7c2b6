/**
 * The server-side board table and its wrap-around lookup
 * (apps/api/src/infrastructure/board_config.rs).
 */
module BoardConfig {
  import opened Base

  datatype SpaceType = Street | Railroad | Utility | Tax | Corner | Chance | CommunityChest

  datatype BoardSpace = BoardSpace(index: int, name: string, spaceType: SpaceType, colorGroup: Option<string>, price: Option<int>)

  const BoardSize: int := 40

  const BoardSpaces: seq<BoardSpace> := [
    BoardSpace(0, "Salida", Corner, None, None),
    BoardSpace(1, "Avenida Mediterráneo", Street, Some("brown"), Some(60)),
    BoardSpace(2, "Arca Comunal", CommunityChest, None, None),
    BoardSpace(3, "Avenida Báltica", Street, Some("brown"), Some(60)),
    BoardSpace(4, "Impuesto sobre Ingresos", Tax, None, Some(200)),
    BoardSpace(5, "Ferrocarril Reading", Railroad, None, Some(200)),
    BoardSpace(6, "Avenida Oriental", Street, Some("light_blue"), Some(100)),
    BoardSpace(7, "Fortuna", Chance, None, None),
    BoardSpace(8, "Avenida Vermont", Street, Some("light_blue"), Some(100)),
    BoardSpace(9, "Avenida Connecticut", Street, Some("light_blue"), Some(120)),
    BoardSpace(10, "En la Cárcel / De Visita", Corner, None, None),
    BoardSpace(11, "Plaza San Carlos", Street, Some("pink"), Some(140)),
    BoardSpace(12, "Compañía de Electricidad", Utility, None, Some(150)),
    BoardSpace(13, "Avenida Estados", Street, Some("pink"), Some(140)),
    BoardSpace(14, "Avenida Virginia", Street, Some("pink"), Some(160)),
    BoardSpace(15, "Ferrocarril Pennsylvania", Railroad, None, Some(200)),
    BoardSpace(16, "Plaza St. James", Street, Some("orange"), Some(180)),
    BoardSpace(17, "Arca Comunal", CommunityChest, None, None),
    BoardSpace(18, "Avenida Tennessee", Street, Some("orange"), Some(180)),
    BoardSpace(19, "Avenida Nueva York", Street, Some("orange"), Some(200)),
    BoardSpace(20, "Parada Libre", Corner, None, None),
    BoardSpace(21, "Avenida Kentucky", Street, Some("red"), Some(220)),
    BoardSpace(22, "Fortuna", Chance, None, None),
    BoardSpace(23, "Avenida Indiana", Street, Some("red"), Some(220)),
    BoardSpace(24, "Avenida Illinois", Street, Some("red"), Some(240)),
    BoardSpace(25, "Ferrocarril B. & O.", Railroad, None, Some(200)),
    BoardSpace(26, "Avenida Atlántico", Street, Some("yellow"), Some(260)),
    BoardSpace(27, "Avenida Ventnor", Street, Some("yellow"), Some(260)),
    BoardSpace(28, "Compañía de Agua", Utility, None, Some(150)),
    BoardSpace(29, "Jardines Marvin", Street, Some("yellow"), Some(280)),
    BoardSpace(30, "Váyase a la Cárcel", Corner, None, None),
    BoardSpace(31, "Avenida Pacífico", Street, Some("green"), Some(300)),
    BoardSpace(32, "Avenida Carolina del Norte", Street, Some("green"), Some(300)),
    BoardSpace(33, "Arca Comunal", CommunityChest, None, None),
    BoardSpace(34, "Avenida Pennsylvania", Street, Some("green"), Some(320)),
    BoardSpace(35, "Ferrocarril Vía Rápida", Railroad, None, Some(200)),
    BoardSpace(36, "Fortuna", Chance, None, None),
    BoardSpace(37, "Plaza Park", Street, Some("dark_blue"), Some(350)),
    BoardSpace(38, "Impuesto de Lujo", Tax, None, Some(100)),
    BoardSpace(39, "El Muelle", Street, Some("dark_blue"), Some(400))
  ]

  /**
   * `get_space`: `rem_euclid(40)` never yields a negative index, so every
   * integer, negative ones included, lands on the space with that residue.
   * Dafny's `%` on int is Euclidean, which is exactly `rem_euclid`.
   */
  function GetSpace(index: int): (r: BoardSpace)
    ensures r.index == index % BoardSize
    ensures r in BoardSpaces
  {
    TableIndexed(index % BoardSize);
    BoardSpaces[index % BoardSize]
  }

  /** Entry k of the table describes space k. */
  lemma TableIndexed(k: int)
    requires 0 <= k < BoardSize
    ensures |BoardSpaces| == BoardSize
    ensures BoardSpaces[k].index == k
  {
  }

  /** Shifting a position by a whole lap reaches the same space. */
  lemma GetSpacePeriodic(i: int)
    ensures GetSpace(i + BoardSize) == GetSpace(i)
  {
    assert (i + BoardSize) % BoardSize == i % BoardSize;
  }

  /** Negative positions wrap backwards: -1 is the last space, 39. */
  lemma GetSpaceNegative()
    ensures GetSpace(-1).index == 39 && GetSpace(-1).name == "El Muelle"
    ensures GetSpace(-40) == GetSpace(0)
  {
  }

  /** The four corners sit at 0, 10, 20 and 30, and no other space is a corner. */
  lemma Corners(k: int)
    requires 0 <= k < BoardSize
    ensures BoardSpaces[k].spaceType == Corner <==> k in {0, 10, 20, 30}
  {
  }

  /** The four railroads sit at 5, 15, 25 and 35, each priced 200. */
  lemma Railroads(k: int)
    requires 0 <= k < BoardSize
    ensures BoardSpaces[k].spaceType == Railroad <==> k in {5, 15, 25, 35}
    ensures BoardSpaces[k].spaceType == Railroad ==> BoardSpaces[k].price == Some(200)
  {
  }

  /** Every street has a colour group and a price; chance and community-chest spaces have neither. */
  lemma StreetsAndDraws(k: int)
    requires 0 <= k < BoardSize
    ensures BoardSpaces[k].spaceType == Street ==> BoardSpaces[k].colorGroup.Some? && BoardSpaces[k].price.Some?
    ensures BoardSpaces[k].spaceType in {Chance, CommunityChest} ==>
              BoardSpaces[k].colorGroup.None? && BoardSpaces[k].price.None?
  {
  }
}
