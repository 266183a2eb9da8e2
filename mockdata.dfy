/** The seed records the stores start from (src/lib/mock-data.ts). Dates are
    midnight UTC of the given day, in milliseconds. */
module MockData {
  import opened Wrappers
  import opened Types

  /** The photo addresses the seed data uses, all of one shape. */
  function Pexels(photo: string): string {
    "https://images.pexels.com/photos/" + photo + "/pexels-photo-" + photo
    + ".jpeg?auto=compress&cs=tinysrgb&w=1260&h=750&dpr=2"
  }

  const ColoristaMestre := Badge("1", "Colorista Mestre", "Completou 50 consultas de coloração", "award", 1694736000000)
  const EspecialistaDiagnostico := Badge("2", "Especialista em Diagnóstico", "Realizou 20 diagnósticos capilares", "badge-check", 1697932800000)
  const TransformadorVisual := Badge("3", "Transformador Visual", "Publicou 10 transformações na galeria", "image", 1699142400000)
  const EngajamentoSocial := Badge("4", "Engajamento Social", "Comentou em 30 publicações", "message-circle", 1701388800000)
  const Pioneiro := Badge("5", "Pioneiro", "Entre os primeiros 100 usuários da plataforma", "flag", 1690675200000)

  /** `mockBadges`: the catalog `addBadge` awards from. */
  const Badges: seq<Badge> := [ColoristaMestre, EspecialistaDiagnostico, TransformadorVisual, EngajamentoSocial, Pioneiro]

  const Juliana := User(
    "1", "Juliana Silva", "juliana.silva@example.com", Some("(11) 98765-4321"), Some(Pexels("762020")),
    1250, [ColoristaMestre, EspecialistaDiagnostico], 1690848000000)
  const Rafael := User(
    "2", "Rafael Costa", "rafael.costa@example.com", Some("(21) 99876-5432"), Some(Pexels("2379005")),
    980, [TransformadorVisual], 1694304000000)
  const Carla := User(
    "3", "Carla Mendes", "carla.mendes@example.com", Some("(31) 98765-9876"), Some(Pexels("1065084")),
    1540, [ColoristaMestre.(earnedAt := 1697068800000), EngajamentoSocial], 1689379200000)

  /** `mockUsers`. */
  const Users: seq<User> := [Juliana, Rafael, Carla]

  /** `mockPosts`. */
  const Posts: seq<Post> := [
    Post("1", "1", "Juliana Silva", Some(Pexels("762020")), Pexels("3993447"), Pexels("2896853"),
      "Transformação incrível usando produtos De Sírius! De um loiro danificado para um platinado saudável.",
      42,
      [ Comment("1", "2", "Rafael Costa", Some(Pexels("2379005")),
          "Ficou incrível! Qual linha de produtos você usou?", 1702339200000),
        Comment("2", "3", "Carla Mendes", Some(Pexels("1065084")),
          "Amei o resultado! Parabéns pelo trabalho.", 1702425600000)],
      1702166400000),
    Post("2", "2", "Rafael Costa", Some(Pexels("2379005")), Pexels("1321909"), Pexels("2014867"),
      "Correção de cor usando a fórmula sugerida pelo Colorista Virtual. De um ruivo opaco para um ruivo vibrante!",
      35,
      [ Comment("3", "1", "Juliana Silva", Some(Pexels("762020")),
          "Que transformação! A ferramenta de IA acertou em cheio.", 1703030400000)],
      1702857600000)
  ]

  /** `mockDiagnoses`. */
  const Diagnoses: seq<HairDiagnosis> := [
    HairDiagnosis("1", "1", 7, "alta", "baixa", "média",
      ["Pontas duplas", "Ressecamento", "Danos por calor"],
      ["Linha de Reconstrução Profunda De Sírius", "Tratamento semanal com máscara nutritiva",
       "Reduzir uso de ferramentas térmicas", "Aplicar leave-in diariamente"],
      1700006400000),
    HairDiagnosis("2", "2", 4, "média", "média", "grossa",
      ["Frizz", "Oleosidade na raiz"],
      ["Linha Balance De Sírius", "Xampu equilibrante 2x por semana",
       "Óleo finalizador para pontas", "Tratamento anti-frizz quinzenal"],
      1701734400000)
  ]

  /** `mockFormulas`. */
  const Formulas: seq<ColorFormula> := [
    ColorFormula("1", "1", "7.3 (Loiro Médio Dourado)", "9.1 (Loiro Muito Claro Acinzentado)",
      "Ox 30 vol + De Sírius 9.1 + De Sírius 0.1",
      "60ml oxidante + 40g coloração 9.1 + 10g intensificador 0.1",
      "Aplicar primeiro nas pontas, deixar agir por 10 minutos, depois aplicar na raiz. Tempo total: 40 minutos.",
      1697760000000),
    ColorFormula("2", "3", "5.0 (Castanho Claro)", "6.66 (Loiro Escuro Vermelho Intenso)",
      "Ox 20 vol + De Sírius 6.66 + De Sírius 0.6",
      "60ml oxidante + 50g coloração 6.66 + 5g intensificador 0.6",
      "Aplicar uniformemente e deixar agir por 35 minutos. Recomendado usar shampoo específico para cabelos tingidos após o procedimento.",
      1699574400000)
  ]

  /** `mockToneConversions`. */
  const ToneConversions: seq<ToneConversion> := [
    ToneConversion("1", "1", "7.0", "9.1",
      ["Passo 1: Descoloração com Ox 20 vol até atingir base 8", "Passo 2: Aplicação de 9.1 com Ox 10 vol",
       "Passo 3: Matização com 0.1 para neutralizar amarelo"],
      ["Pó descolorante De Sírius", "Oxidante 20 vol De Sírius", "Coloração 9.1 De Sírius",
       "Oxidante 10 vol De Sírius", "Intensificador 0.1 De Sírius"],
      1695600000000)
  ]

  /** `mockToneAnalyses`. */
  const ToneAnalyses: seq<BackgroundToneAnalysis> := [
    BackgroundToneAnalysis("1", "2", Some(Pexels("2896853")),
      "Cabelo com mechas loiras, parece ter um tom amarelado em algumas áreas",
      "8.3 (Loiro Claro Dourado)",
      ["Para neutralizar o tom dourado, utilize um matizador com pigmento violeta",
       "Recomendamos a linha Platinum De Sírius para manutenção",
       "Para escurecer, considere um tom 7.1 (Loiro Médio Acinzentado)"],
      1701388800000)
  ]

  /** `mockToneCorrections`. */
  const ToneCorrections: seq<ToneCorrection> := [
    ToneCorrection("1", "3", ["Amarelo", "Dourado"],
      ["Utilizar matizador com pigmento violeta De Sírius",
       "Aplicar coloração com reflexo cinza (x.1) em proporção 1:2 com base natural",
       "Shampoo matizador 2x por semana para manutenção",
       "Máscara tonalizante violeta para reforçar efeito anti-amarelamento"],
      1700006400000)
  ]

  /** `mockNeutralizationGuides`. */
  const NeutralizationGuides: seq<NeutralizationGuide> := [
    NeutralizationGuide("1", "1", "Platinado Frio",
      ["Amarelo se neutraliza com violeta (x.2)", "Dourado se neutraliza com cinza/azul (x.1)",
       "Alaranjado se neutraliza com azul (x.8)", "Vermelho se neutraliza com verde (x.7)"],
      ["Shampoo Matizador Violeta De Sírius", "Máscara Matizadora Platinum De Sírius",
       "Leave-in Protetor Térmico De Sírius", "Intensificador 0.1 (Cinza) De Sírius"],
      1696464000000)
  ]
}
