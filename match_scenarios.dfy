/** The exact match values behind the float literals of the test suite for
    match.py. Each chain fixes the game-from-love value, then the
    set-from-love value through every games pair, then the match value
    through every sets score it depends on; the rationals grow to hundreds of
    digits, which is why each level has a lemma of its own. */
module MatchScenarios {
  import opened Errors
  import opened Check
  import opened Games
  import opened Sets
  import opened Matches

  /** The exact game-from-love value at p = 0.38. */
  lemma GameWinAtPointThirtyEight()
    ensures GameWin(0.38) == 1446823742.0 / 6455078125.0
  {
    var p := 0.38;
    assert GameValue(2, 2, p) == 361.0 / 1322.0;
    assert GameValue(2, 3, p) == 6859.0 / 66100.0;
    assert GameValue(3, 2, p) == 36309.0 / 66100.0;
    assert GameValue(1, 3, p) == 130321.0 / 3305000.0;
    assert GameValue(3, 1, p) == 2381479.0 / 3305000.0;
    assert GameValue(0, 3, p) == 2476099.0 / 165250000.0;
    assert GameValue(1, 2, p) == 21187451.0 / 165250000.0;
    assert GameValue(2, 1, p) == 73225601.0 / 165250000.0;
    assert GameValue(3, 0, p) == 136620849.0 / 165250000.0;
    assert GameValue(0, 2, p) == 239660319.0 / 4131250000.0;
    assert GameValue(1, 1, p) == 10240487.0 / 41312500.0;
    assert GameValue(2, 0, p) == 2432894881.0 / 4131250000.0;
    assert GameValue(0, 1, p) == 26886395189.0 / 206562500000.0;
    assert GameValue(1, 0, p) == 77970512439.0 / 206562500000.0;
    assert GameValue(0, 0, p) == 1446823742.0 / 6455078125.0;
  }

  /** The exact set-from-love value at p = 0.38, through every games
      pair the recursion visits. */
  lemma SetWinAtPointThirtyEight()
    ensures SetWin(0.38) == 7673961712220132206861017604152045987361969035170426067116831401700578110122825994173130216395270390034304.0 / 528807536052714691508288851882096091861348440555559592766765708419553215779984611799591220915317535400390625.0
  {
    GameWinAtPointThirtyEight();
    var q := 1446823742.0 / 6455078125.0;
    assert SetValue(4, 4, q) == 2093298940414882564.0 / 27175910905253593253.0;
    assert SetValue(4, 5, q) == 3028634606095695423737034488.0 / 175422628011451417385087890625.0;
    assert SetValue(5, 4, q) == 49802526701459702688834690738.0 / 175422628011451417385087890625.0;
    assert SetValue(3, 5, q) == 4381900453942070063063491861911214096.0 / 1132366768706732293862725543975830078125.0;
    assert SetValue(5, 3, q) == 503229345728062247041529941963987223404.0 / 1132366768706732293862725543975830078125.0;
    assert SetValue(2, 5, q) == 6339837611843964459867697279236930050137867232.0 / 7309515958155762170344351411797106266021728515625.0;
    assert SetValue(3, 4, q) == 148142920682799616105694511000707985891815257768.0 / 7309515958155762170344351411797106266021728515625.0;
    assert SetValue(4, 3, q) == 1164922395407788585361932676563815820265526195268.0 / 7309515958155762170344351411797106266021728515625.0;
    assert SetValue(5, 2, q) == 4158635702013512992841283320720970670958048023482.0 / 7309515958155762170344351411797106266021728515625.0;
    assert SetValue(1, 5, q) == 9172627577240428179940790602468794039732716684501422144.0 / 47183496565829675728492346515604367596097290515899658203125.0;
    assert SetValue(2, 4, q) == 246088214360123123328433022413760022616346741735528405712.0 / 47183496565829675728492346515604367596097290515899658203125.0;
    assert SetValue(3, 3, q) == 376041120506741012850297576442806134638556984464.0 / 7309515958155762170344351411797106266021728515625.0;
    assert SetValue(4, 2, q) == 11851040560657904057844513714919352885077335557602205969288.0 / 47183496565829675728492346515604367596097290515899658203125.0;
    assert SetValue(5, 1, q) == 31403086712697093613784460752524868315417299527012881390356.0 / 47183496565829675728492346515604367596097290515899658203125.0;
    assert SetValue(0, 5, q) == 13271175355275390332984183997902335030793385833296180990703742848.0 / 304573156543099762270834385222797724424026455380953848361968994140625.0;
    assert SetValue(1, 4, q) == 401985123429952518351756137700345696582003077730956257921951271456.0 / 304573156543099762270834385222797724424026455380953848361968994140625.0;
    assert SetValue(2, 3, q) == 4744455885582179148774740740492646121622099094242317715259063735696.0 / 304573156543099762270834385222797724424026455380953848361968994140625.0;
    assert SetValue(3, 2, q) == 29303277387357847156334618824386115807918762297624026757037969985696.0 / 304573156543099762270834385222797724424026455380953848361968994140625.0;
    assert SetValue(4, 1, q) == 104787757259040613256113207632668627502381554693530604151552420021456.0 / 304573156543099762270834385222797724424026455380953848361968994140625.0;
    assert SetValue(5, 0, q) == 225540849730612121614741207585191522574115543290461144098675879524098.0 / 304573156543099762270834385222797724424026455380953848361968994140625.0;
    assert SetValue(0, 4, q) == 648067042649875333291215356396254267646275717345234708108807984882628611136.0 / 1966043520263563895127163365549504842229311396550883728195913136005401611328125.0;
    assert SetValue(1, 3, q) == 1775527034890157595612343145124865812137815510878406429012580004135624097216.0 / 393208704052712779025432673109900968445862279310176745639182627201080322265625.0;
    assert SetValue(2, 2, q) == 10249003675127194396943788593558334577699662737676986653550463807216.0 / 304573156543099762270834385222797724424026455380953848361968994140625.0;
    assert SetValue(3, 1, q) == 59673536496962506042268291276917331373670904451696458876422899344576625902784.0 / 393208704052712779025432673109900968445862279310176745639182627201080322265625.0;
    assert SetValue(4, 0, q) == 851121600758434139460135829990507290152756086916096855397097857084910613576364.0 / 1966043520263563895127163365549504842229311396550883728195913136005401611328125.0;
    assert SetValue(0, 3, q) == 16090057950038797929627180577156484578547431740794429334153855064483218141480199120448.0 / 12690964520451325533975146334259987311656004229688810003295884598628617823123931884765625.0;
    assert SetValue(1, 2, q) == 28036118637048906750873746871810130355976791476168491392384534699783977269958762597728.0 / 2538192904090265106795029266851997462331200845937762000659176919725723564624786376953125.0;
    assert SetValue(2, 1, q) == 152604427690528003878257093669066098724932183110669089024118968846842427382931731347728.0 / 2538192904090265106795029266851997462331200845937762000659176919725723564624786376953125.0;
    assert SetValue(3, 0, q) == 2725724192856462405078534346622851039921343903384139502127183222547990155454917464745448.0 / 12690964520451325533975146334259987311656004229688810003295884598628617823123931884765625.0;
    assert SetValue(0, 2, q) == 283399713639061000262647733774642069143092750332746023308882730209396327813836726789368769214464.0 / 81921167461116466581616911395955582158248230427971713009556442575131995909032411873340606689453125.0;
    assert SetValue(1, 1, q) == 55956522317580210223614012812695175103193646633239677260763525382084926971504299413632.0 / 2538192904090265106795029266851997462331200845937762000659176919725723564624786376953125.0;
    assert SetValue(2, 0, q) == 7765051445599983820835655306101107606566851759171962373755973282169697104549080713204348418285536.0 / 81921167461116466581616911395955582158248230427971713009556442575131995909032411873340606689453125.0;
    assert SetValue(0, 1, q) == 4032328469830962072319718810270023613376348005103817376149290785371387639389313628030321475053392294995712.0 / 528807536052714691508288851882096091861348440555559592766765708419553215779984611799591220915317535400390625.0;
    assert SetValue(1, 0, q) == 20279661437787714659519690784103396370591685003439398362212109014625725661297685366033937490012829169995712.0 / 528807536052714691508288851882096091861348440555559592766765708419553215779984611799591220915317535400390625.0;
    assert SetValue(0, 0, q) == 7673961712220132206861017604152045987361969035170426067116831401700578110122825994173130216395270390034304.0 / 528807536052714691508288851882096091861348440555559592766765708419553215779984611799591220915317535400390625.0;
  }

  /** The exact set-from-love value at p = 0.51, through every games
      pair the recursion visits. */
  lemma SetWinAtPointFiftyOne()
    ensures SetWin(0.51) == 10256021206029690255844980762488662978515423457045081499627373034869077680857319886961344203944220613473937861625260199156990193947155480007.0 / 17886435831072473817048625580960706342150550112098456621646881103515625000000000000000000000000000000000000000000000000000000000000000000000.0
  {
    GameFromLoveScenario();
    var q := 3282468759999.0 / 6252500000000.0;
    assert SetValue(4, 4, q) == 10774601160369372662480001.0 / 19595686726951250324960002.0;
    assert SetValue(4, 5, q) == 35367291710361441224228258034606279999.0 / 122522031260262692656812412505000000000.0;
    assert SetValue(5, 4, q) == 96323131556792594895822051782106279999.0 / 122522031260262692656812412505000000000.0;
    assert SetValue(3, 5, q) == 116092030165033031835395050666589884738495724960001.0 / 766069000454792485836719609187512500000000000000000.0;
    assert SetValue(5, 3, q) == 688257449881833360181020714403888178036494275039999.0 / 766069000454792485836719609187512500000000000000000.0;
    assert SetValue(2, 5, q) == 381068462301582479337604683039863077335446396690017036343799999.0 / 4789846425343590017694089356444921906250000000000000000000000000.0;
    assert SetValue(3, 4, q) == 1727437237652802334831883985219992151992154367372389216156200001.0 / 4789846425343590017694089356444921906250000000000000000000000000.0;
    assert SetValue(4, 3, q) == 3510219042395112117491088256776422924348550465809607973656200001.0 / 4789846425343590017694089356444921906250000000000000000000000000.0;
    assert SetValue(5, 2, q) == 4558743689308983703703005195778428930699786232627985773843799999.0 / 4789846425343590017694089356444921906250000000000000000000000000.0;
    assert SetValue(1, 5, q) == 1250845322925801118526731282828714781348026974712212879269618099369187440001.0 / 29948514774460796585632293701171874218828125000000000000000000000000000000000.0;
    assert SetValue(2, 4, q) == 3401022002534567643417354114486061596033025052218778687348116394378312559999.0 / 14974257387230398292816146850585937109414062500000000000000000000000000000000.0;
    assert SetValue(3, 3, q) == 1331685478479441465697948025241733891517147583409001405093799999.0 / 2394923212671795008847044678222460953125000000000000000000000000.0;
    assert SetValue(4, 2, q) == 12694696980079601941179189772948641355365301386722096171255945630631687440001.0 / 14974257387230398292816146850585937109414062500000000000000000000000000000000.0;
    assert SetValue(5, 1, q) == 29262132428788311009241490056209219776042767429251474832824288863115812559999.0 / 29948514774460796585632293701171874218828125000000000000000000000000000000000.0;
    assert SetValue(0, 5, q) == 4105860696094803124214126859681453969442300517348800739697460815430663860288287681319999.0 / 187253088627316130651665916366577143553222851562500000000000000000000000000000000000000000.0;
    assert SetValue(1, 4, q) == 26042546636276684544617760396234171781535555343258263690979387412281785574953894456040003.0 / 187253088627316130651665916366577143553222851562500000000000000000000000000000000000000000.0;
    assert SetValue(2, 3, q) == 37432169518243353995437856684015698045851014429908483773247739742312331891682035181319999.0 / 93626544313658065325832958183288571776611425781250000000000000000000000000000000000000000.0;
    assert SetValue(3, 2, q) == 66399505829319918391721684575637280019038837978092592436995632430626765798650772681319999.0 / 93626544313658065325832958183288571776611425781250000000000000000000000000000000000000000.0;
    assert SetValue(4, 1, q) == 171459328774816833706664305425322468310306042034558057811845240597338483854047681956040003.0 / 187253088627316130651665916366577143553222851562500000000000000000000000000000000000000000.0;
    assert SetValue(5, 0, q) == 185214511618083683298990150606755800421180584308363584711991166829070871330044520181319999.0 / 187253088627316130651665916366577143553222851562500000000000000000000000000000000000000000.0;
    assert SetValue(0, 4, q) == 24419595074722268582176999995740125405423272609919583524023197573076466314800788922550349754450079999.0 / 292699984160573526724885285520505897516631469848632812500000000000000000000000000000000000000000000000.0;
    assert SetValue(1, 3, q) == 64617406240833193544806321277096290192782652455376683073231037399237101188583610777540173997049920001.0 / 234159987328458821379908228416404718013305175878906250000000000000000000000000000000000000000000000000.0;
    assert SetValue(2, 2, q) == 13159896697893245426593124650135001070474211697334518128183970847475755842333596068680001.0 / 23406636078414516331458239545822142944152856445312500000000000000000000000000000000000000.0;
    assert SetValue(3, 1, q) == 191445420716230240440490466103786804669748361649175661421701421493509342565050504009235635990950079999.0 / 234159987328458821379908228416404718013305175878906250000000000000000000000000000000000000000000000000.0;
    assert SetValue(4, 0, q) == 279300102783909976924625906342721962985414408945507347572839300901221201735344067593979887760549920001.0 / 292699984160573526724885285520505897516631469848632812500000000000000000000000000000000000000000000000.0;
    assert SetValue(0, 3, q) == 1350630927648895650309341561106876214244613790122204048746223906652584251480783045392172856027778239818057569559991.0 / 7320426603855943903389380990867852496890953060914306640625000000000000000000000000000000000000000000000000000000000.0;
    assert SetValue(1, 2, q) == 624058000938778520478475491276869971310114421516415032111987899612318714962290080998421666305545070726463881160001.0 / 1464085320771188780677876198173570499378190612182861328125000000000000000000000000000000000000000000000000000000000.0;
    assert SetValue(2, 1, q) == 1019422997042412269543143032479396945242572748876631727506054450672029319784191506785962349896532444370231381160001.0 / 1464085320771188780677876198173570499378190612182861328125000000000000000000000000000000000000000000000000000000000.0;
    assert SetValue(3, 0, q) == 6510169849622469092026907386573226197011797163425724900556271346691461935337870066246028695890866624311685069559991.0 / 7320426603855943903389380990867852496890953060914306640625000000000000000000000000000000000000000000000000000000000.0;
    assert SetValue(0, 2, q) == 7126835255686793001994947683037799628130946394010482167311646736779233401586920869914852205649202645867191963239055641313199993.0 / 22885483670304644627971052322700623868405342006683351135253906250000000000000000000000000000000000000000000000000000000000000000.0;
    assert SetValue(1, 1, q) == 415809348210876996248061959155767489249573506846798648493746778796087457314614619335055598421918727354957106519997.0 / 732042660385594390338938099086785249689095306091430664062500000000000000000000000000000000000000000000000000000000.0;
    assert SetValue(2, 0, q) == 18254009946815099880645827419678132585267852754806056658175884894759828766078680694270101809537777241974550589877194458686800007.0 / 22885483670304644627971052322700623868405342006683351135253906250000000000000000000000000000000000000000000000000000000000000000.0;
    assert SetValue(0, 1, q) == 63836521729730193549341100932625674106727818716349508790227873647606124944610574664521582830622949741198850207366335337620267753006594519993.0 / 143091486648579790536389004647685650737204400896787652973175048828125000000000000000000000000000000000000000000000000000000000000000000000000.0;
    assert SetValue(1, 0, q) == 98526365544268663452075298661393587508211207917232918352262000251770974180497799834981736016662832107758403023736189537292314359099094519993.0 / 143091486648579790536389004647685650737204400896787652973175048828125000000000000000000000000000000000000000000000000000000000000000000000000.0;
    assert SetValue(0, 0, q) == 10256021206029690255844980762488662978515423457045081499627373034869077680857319886961344203944220613473937861625260199156990193947155480007.0 / 17886435831072473817048625580960706342150550112098456621646881103515625000000000000000000000000000000000000000000000000000000000000000000000.0;
  }

  /** The exact game-from-love value at p = 0.91. */
  lemma GameWinAtPointNinetyOne()
    ensures GameWin(0.91) == 10442526486119.0 / 10452500000000.0
  {
    var p := 0.91;
    assert GameValue(2, 2, p) == 8281.0 / 8362.0;
    assert GameValue(2, 3, p) == 753571.0 / 836200.0;
    assert GameValue(3, 2, p) == 835471.0 / 836200.0;
    assert GameValue(1, 3, p) == 68574961.0 / 83620000.0;
    assert GameValue(3, 1, p) == 83613439.0 / 83620000.0;
    assert GameValue(0, 3, p) == 6240321451.0 / 8362000000.0;
    assert GameValue(1, 2, p) == 8152884649.0 / 8362000000.0;
    assert GameValue(2, 1, p) == 8354112949.0 / 8362000000.0;
    assert GameValue(3, 0, p) == 8361940951.0 / 8362000000.0;
    assert GameValue(0, 2, p) == 399037698059.0 / 418100000000.0;
    assert GameValue(1, 1, p) == 4168001201.0 / 4181000000.0;
    assert GameValue(2, 0, p) == 418061821541.0 / 418100000000.0;
    assert GameValue(0, 1, p) == 41520150211631.0 / 41810000000000.0;
    assert GameValue(1, 0, p) == 41794826841131.0 / 41810000000000.0;
    assert GameValue(0, 0, p) == 10442526486119.0 / 10452500000000.0;
  }

  /** The exact set-from-love value at p = 0.91, through every games
      pair the recursion visits. */
  lemma SetWinAtPointNinetyOne()
    ensures SetWin(0.91) == 10150166596149389959378645516223939536818924598069252526837740261556202404119860695852747824077605903884308992779698971469046162375574939472767.0 / 10150166596149391564605643982923546327803072458019628876390933990478515625000000000000000000000000000000000000000000000000000000000000000000000.0
  {
    GameWinAtPointNinetyOne();
    var q := 10442526486119.0 / 10452500000000.0;
    assert SetValue(4, 4, q) == 109046359413296829499682161.0 / 109046458884275963999364322.0;
    assert SetValue(4, 5, q) == 1138719496388204079400439417534678423159.0 / 1139808111487894513703355575705000000000.0;
    assert SetValue(5, 4, q) == 1139808110495819322548761629682178423159.0 / 1139808111487894513703355575705000000000.0;
    assert SetValue(3, 5, q) == 11891108501293910057182531903092944548017200021629921.0 / 11913844285327217404484324155056512500000000000000000.0;
    assert SetValue(5, 3, q) == 11913844285317322928794348083918935324260589978370079.0 / 11913844285327217404484324155056512500000000000000000.0;
    assert SetValue(2, 5, q) == 124173215474076462954284339231392780058866970410644269735161566599.0 / 124529457392382739920372398230728196906250000000000000000000000000.0;
    assert SetValue(3, 4, q) == 124529117150714123988566730191329489873653712809192479517338433401.0 / 124529457392382739920372398230728196906250000000000000000000000000.0;
    assert SetValue(4, 3, q) == 124529457283890483404646244900111691631252662524952727274838433401.0 / 124529457392382739920372398230728196906250000000000000000000000000.0;
    assert SetValue(5, 2, q) == 124529457392382641237681759037330148436827054217710523472661566599.0 / 124529457392382739920372398230728196906250000000000000000000000000.0;
    assert SetValue(1, 5, q) == 1296682091454605123430727118690387824802426718490736252512419532797794667539281.0 / 1301644153393880589017692492506686478162578125000000000000000000000000000000000.0;
    assert SetValue(2, 4, q) == 650818523713763582052380479540879347607073094311858850175234867078252832460719.0 / 650822076696940294508846246253343239081289062500000000000000000000000000000000.0;
    assert SetValue(3, 3, q) == 62264728479671959912834611849981806927234312332927396603911566599.0 / 62264728696191369960186199115364098453125000000000000000000000000.0;
    assert SetValue(4, 2, q) == 650822076696398754747370581878539928259127494548446697815222533417557167539281.0 / 650822076696940294508846246253343239081289062500000000000000000000000000000000.0;
    assert SetValue(5, 1, q) == 1301644153393880588033479307602262360082610024446180425501894366458490332460719.0 / 1301644153393880589017692492506686478162578125000000000000000000000000000000000.0;
    assert SetValue(0, 5, q) == 13540637084090893436979765132851097021235424876065068042001722629233694422571443853333740439.0 / 13605435513349536856707430777926140412994347851562500000000000000000000000000000000000000000.0;
    assert SetValue(1, 4, q) == 13605311819914052000972220601698675685877192700268960007527356625147649513398672397498778683.0 / 13605435513349536856707430777926140412994347851562500000000000000000000000000000000000000000.0;
    assert SetValue(2, 3, q) == 6802717697605837777103568145874505147149943043899959249208892444193472672617109200833740439.0 / 6802717756674768428353715388963070206497173925781250000000000000000000000000000000000000000.0;
    assert SetValue(3, 2, q) == 6802717756646541636283007309479235067397933588846104686029643761602026266595435938333740439.0 / 6802717756674768428353715388963070206497173925781250000000000000000000000000000000000000000.0;
    assert SetValue(4, 1, q) == 13605435513349526044321102144638783216349203853601832537682674704171988731463692184998778683.0 / 13605435513349536856707430777926140412994347851562500000000000000000000000000000000000000000.0;
    assert SetValue(5, 0, q) == 13605435513349536856697614714064632919394366106643589276686173629855669454141101285833740439.0 / 13605435513349536856707430777926140412994347851562500000000000000000000000000000000000000000.0;
    assert SetValue(0, 4, q) == 35552219190819036565065723264464395479436578146068556948596825210059058302604911813799498688394017533759.0 / 35552703675821508498683605051568245666705855229614257812500000000000000000000000000000000000000000000000.0;
    assert SetValue(1, 3, q) == 28442162447194018506627118223083589679072752180142540235577153209506218876411438116729510648417482466241.0 / 28442162940657206798946884041254596533364684183691406250000000000000000000000000000000000000000000000000.0;
    assert SetValue(2, 2, q) == 1700679439147551618602358227614534746187994534339907488515026903763983647581227430416259561.0 / 1700679439168692107088428847240767551624293481445312500000000000000000000000000000000000000.0;
    assert SetValue(3, 1, q) == 28442162940657071609099747737333427804480551038278820715036866666258018208986969244425914657090517533759.0 / 28442162940657206798946884041254596533364684183691406250000000000000000000000000000000000000000000000000.0;
    assert SetValue(4, 0, q) == 35552703675821508471698607641012758975439017768997876929813288293855877548076766484756219679720982466241.0 / 35552703675821508498683605051568245666705855229614257812500000000000000000000000000000000000000000000000.0;
    assert SetValue(0, 3, q) == 1486458495593013612832982602066083105550479746118107709867078198632731613188097489613689019649125188141500829953478111.0 / 1486458540686097270329961527206068351324971807150172119140625000000000000000000000000000000000000000000000000000000000.0;
    assert SetValue(1, 2, q) == 297291708128605900012347371067958430123690744215584596322148576998350115150514953467486574092327853306645644727391321.0 / 297291708137219454065992305441213670264994361430034423828125000000000000000000000000000000000000000000000000000000000.0;
    assert SetValue(2, 1, q) == 297291708137214516171399373403769103197876393052349654747036973175852609127862821942199910190035706655334012227391321.0 / 297291708137219454065992305441213670264994361430034423828125000000000000000000000000000000000000000000000000000000000.0;
    assert SetValue(3, 0, q) == 1486458540686097262461206241534778865517613230043522824431166146267579487372807298709637307590170214700682257453478111.0 / 1486458540686097270329961527206068351324971807150172119140625000000000000000000000000000000000000000000000000000000000.0;
    assert SetValue(0, 2, q) == 7768603947810979445302378984635907163743023413269590750628179389276530853040554361053815113560458715574610096124409394641113012393.0 / 7768603948260715859061961431560714721112133907118587037658691406250000000000000000000000000000000000000000000000000000000000000000.0;
    assert SetValue(1, 1, q) == 148645854068603151022664120758373570868429067441676168305671732203082862877081604806747010069661895057030514567826037.0 / 148645854068609727032996152720606835132497180715017211914062500000000000000000000000000000000000000000000000000000000.0;
    assert SetValue(2, 0, q) == 7768603948260715694856718026048755551452830823854621553724792618175502782331209383869693543715157256102237190272901915458886987607.0 / 7768603948260715859061961431560714721112133907118587037658691406250000000000000000000000000000000000000000000000000000000000000000.0;
    assert SetValue(0, 1, q) == 81201332769187058190134795113833832634773930495893789276691192675088083238534738556837801602082922556768271704332926778154921439704178810527233.0 / 81201332769195132516845151863388370622424579664157031011127471923828125000000000000000000000000000000000000000000000000000000000000000000000000.0;
    assert SetValue(1, 0, q) == 81201332769195127374442864668330821647901804375213040340922408488384315877837440052306398331255431609613783386706637633339900298044671310527233.0 / 81201332769195132516845151863388370622424579664157031011127471923828125000000000000000000000000000000000000000000000000000000000000000000000000.0;
    assert SetValue(0, 0, q) == 10150166596149389959378645516223939536818924598069252526837740261556202404119860695852747824077605903884308992779698971469046162375574939472767.0 / 10150166596149391564605643982923546327803072458019628876390933990478515625000000000000000000000000000000000000000000000000000000000000000000000.0;
  }

  /** match(1, 0, 0.38) in a best-of-five match is 0.0012392424927120083 in
      floating point; the exact value agrees to twelve decimal places. */
  lemma MatchScenarioOneLove()
    ensures Match(1, 0, 0.38, DefaultBestOf).Ok?
    ensures 0.0012392424925 <= Match(1, 0, 0.38, DefaultBestOf).value <= 0.0012392424929
  {
    SetWinAtPointThirtyEight();
    var q := SetWin(0.38);
    assert MatchFrom(2, 2, q, DefaultBestOf) == Ok(7673961712220132206861017604152045987361969035170426067116831401700578110122825994173130216395270390034304.0 / 528807536052714691508288851882096091861348440555559592766765708419553215779984611799591220915317535400390625.0);
    assert MatchFrom(2, 1, q, DefaultBestOf) == Ok(8057207881243378909222935306331518401528060759723967734454797998630643746908057221951203142529166766446983554105386207624461461293563454647243944821932328186952849898889959376718934624658166369813323650019203235584.0 / 279637410186143148257775541380894454494635129752432494264433994045167399979271265702390793876280839550201102557529733189953289665706208794191345405625720169193608004239542095571702251532997252070344984531402587890625.0);
    assert MatchFrom(1, 2, q, DefaultBestOf) == Ok(58889688360620543198107483787739048112912973121537468155489679468089860538567640009480379466007325617629401578742362599430797975606944608424086756705721454904581252208541499909415317962677279097198810918296764416.0 / 279637410186143148257775541380894454494635129752432494264433994045167399979271265702390793876280839550201102557529733189953289665706208794191345405625720169193608004239542095571702251532997252070344984531402587890625.0);
    assert MatchFrom(2, 0, q, DefaultBestOf) == Ok(6344808321429623574430009539950048043989872314297452540287529150979582915161040795720342458119999606053254981133776364980040506071417135762457745711161438448124573197143455580369892724221788777713817632975004476798242368145834783879370701689361969412585109860784996498730008448532859500487444548571096403090258100696526464.0 / 147874369868696659385616343587670123581516775029567186449689863278828823507142484293474907039533201367270892189431723759159315784792435937207425958062490284921872208460713809545614826756553357195824064849802526980919148458747176545027769854654186002836751376673054951333479318330136643988570455121589475311338901519775390625.0);
    assert MatchFrom(1, 1, q, DefaultBestOf) == Ok(92520098575227986675320277170161802988559582023723348524191210443348921597232094086494636480051362154185392041362874440256291424438992638143210502452315844683539945648018674580870487996107617159942952575523148766527332331191007536701270323905702191706004194409302552310200952051340926291493049484518085543116611106947072.0 / 147874369868696659385616343587670123581516775029567186449689863278828823507142484293474907039533201367270892189431723759159315784792435937207425958062490284921872208460713809545614826756553357195824064849802526980919148458747176545027769854654186002836751376673054951333479318330136643988570455121589475311338901519775390625.0);
    assert MatchFrom(1, 0, q, DefaultBestOf) == Ok(96905145798870075822485875428822534376206385530175552048385525452680228324410536786323906550777931702520467598394783838361601629662656294316542695943046094436952947268135394167715721494029531216745159559021891066343655551413438302006201244484913962152836397097828026240183068089730672076836363842687171888603805166973126675214298731436110000346098989700444029417900893964630083562863254455691449991698288350679487370683811463168.0 / 78197081175613275770750001149518503043021404522929821406494334505082081820031880377302935889290426655403735289717480230825236105804834849211124738189988716144044710513116858978155865792490229366815117573820588280510914141374430584804740765201262110813200561148148235599807120296870358881891901842742020226493339646373909436208087335763916774529835972397130141485426544863838229348836986729899545256472492837929166853427886962890625.0);
  }

  /** match(2, 2, 0.51) in a best-of-five match is 0.573396584031171 in
      floating point; the exact value agrees to twelve decimal places. */
  lemma MatchScenarioTwoAll()
    ensures Match(2, 2, 0.51, DefaultBestOf).Ok?
    ensures 0.5733965840309 <= Match(2, 2, 0.51, DefaultBestOf).value <= 0.5733965840313
  {
    SetWinAtPointFiftyOne();
    var q := SetWin(0.51);
    assert MatchFrom(2, 2, q, DefaultBestOf) == Ok(10256021206029690255844980762488662978515423457045081499627373034869077680857319886961344203944220613473937861625260199156990193947155480007.0 / 17886435831072473817048625580960706342150550112098456621646881103515625000000000000000000000000000000000000000000000000000000000000000000000.0);
  }

  /** match(2, 1, 0.91) == 1.0 holds in the test suite only after float
      rounding: the exact value lies strictly below 1, within 10^-30 of it. */
  lemma MatchScenarioTwoOne()
    ensures Match(2, 1, 0.91, DefaultBestOf).Ok?
    ensures 1.0 - 0.000000000000000000000000000001 < Match(2, 1, 0.91, DefaultBestOf).value < 1.0
  {
    SetWinAtPointNinetyOne();
    var q := SetWin(0.91);
    assert MatchFrom(2, 2, q, DefaultBestOf) == Ok(10150166596149389959378645516223939536818924598069252526837740261556202404119860695852747824077605903884308992779698971469046162375574939472767.0 / 10150166596149391564605643982923546327803072458019628876390933990478515625000000000000000000000000000000000000000000000000000000000000000000000.0);
    assert MatchFrom(2, 1, q, DefaultBestOf) == Ok(103025881929586925753591084776650694262972898240220539347538245414345787462763274385828778294216721050032470911096035355006593709201588250136059615140855633455136837529831388198966530846568622019735018492014191713693211231131802124560684290077111438410363207262135099519404404065363711.0 / 103025881929586925753591084776653271016689504649842310899855493906096843214796705474837148367182686005848749594119717812645831145346164703369140625000000000000000000000000000000000000000000000000000000000000000000000000000000000000000000000000000000000000000000000000000000000000000000.0);
  }
}
